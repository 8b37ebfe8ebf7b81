/** The builder trees of the builder-composite unit test, assembled with `AddSubBuilder`
    and driven with stubbed create and destroy steps. Each method returns what the test
    asserts and counts. */
module CompositeScenarios {
  import opened Common
  import opened Descriptor
  import opened Composite

  /** The build trace of a resource builder over one image builder, in which each
      builder appears once. */
  lemma ListTraces(r: AtomBuilder, i: AtomBuilder)
    requires r != i
    ensures BuildTrace(Node(r, [Node(i, [])])) == [i, r]
    ensures multiset(BuildTrace(Node(r, [Node(i, [])])))[r] == 1
    ensures multiset(BuildTrace(Node(r, [Node(i, [])])))[i] == 1
  {
    SmallTreeTraces(i, Node(i, []), Node(i, []), b => Ok(true));
    SmallTreeTraces(r, Node(i, []), Node(i, []), b => Ok(true));
    assert multiset([i, r])[r] == 1 && multiset([i, r])[i] == 1;
  }

  /** The rollback of a chain of three builders visits them from the top down, reaches
      the bottom one once, and succeeds exactly when all three destroy steps do. */
  lemma ChainTraces(r: AtomBuilder, i: AtomBuilder, e: AtomBuilder, destroys: AtomBuilder -> Result<bool>)
    requires r != e && i != e
    ensures RollbackTrace(Node(r, [Node(i, [Node(e, [])])])) == [r, i, e]
    ensures multiset(RollbackTrace(Node(r, [Node(i, [Node(e, [])])])))[e] == 1
    ensures RollbackOk(Node(r, [Node(i, [Node(e, [])])]), destroys)
            == (destroys(r) == Ok(true) && destroys(i) == Ok(true) && destroys(e) == Ok(true))
  {
    SmallTreeTraces(e, Node(e, []), Node(e, []), destroys);
    SmallTreeTraces(i, Node(e, []), Node(e, []), destroys);
    SmallTreeTraces(r, Node(i, [Node(e, [])]), Node(e, []), destroys);
    assert multiset([r, i, e])[e] == 1;
  }

  /** The rollback of a builder over a builder with two leaves: the later leaf is
      destroyed before the earlier one, and each of the lower three once. */
  lemma TreeTraces(r: AtomBuilder, i: AtomBuilder, e: AtomBuilder, e2: AtomBuilder, destroys: AtomBuilder -> Result<bool>)
    requires r != i && r != e && r != e2 && i != e && i != e2 && e != e2
    ensures RollbackTrace(Node(r, [Node(i, [Node(e, []), Node(e2, [])])])) == [r, i, e2, e]
    ensures var m := multiset(RollbackTrace(Node(r, [Node(i, [Node(e, []), Node(e2, [])])])));
            m[i] == 1 && m[e] == 1 && m[e2] == 1
    ensures RollbackOk(Node(r, [Node(i, [Node(e, []), Node(e2, [])])]), destroys)
            == (destroys(r) == Ok(true) && destroys(i) == Ok(true) && destroys(e) == Ok(true) && destroys(e2) == Ok(true))
  {
    var leaf, leaf2 := Node(e, []), Node(e2, []);
    SmallTreeTraces(e, leaf, leaf, destroys);
    SmallTreeTraces(e2, leaf, leaf, destroys);
    SmallTreeTraces(i, leaf, leaf2, destroys);
    SmallTreeTraces(r, Node(i, [leaf, leaf2]), leaf, destroys);
    var m := multiset([r, i, e2, e]);
    assert m[i] == 1 && m[e] == 1 && m[e2] == 1;
  }

  /** Create steps that never throw throw nowhere. */
  lemma NothingThrows(s: seq<AtomBuilder>, creates: AtomBuilder -> Result<bool>)
    requires forall b :: creates(b).Ok?
    ensures !Throws(s, creates)
  {
  }

  /** A resource builder with one image builder added as its sub-builder. */
  method MakeList(ocl: Ocl) returns (resource: AtomBuilder, image: AtomBuilder)
    ensures resource.Valid() && resource != image
    ensures resource.Tree == Node(resource, [Node(image, [])])
  {
    image := new AtomBuilder(ImageBuilder, ocl);
    resource := new AtomBuilder(ResourceBuilder, ocl);
    resource.AddSubBuilder(image);
  }

  /** A resource builder over an image builder over an env builder. */
  method MakeChain(ocl: Ocl) returns (resource: AtomBuilder, image: AtomBuilder, env: AtomBuilder)
    ensures resource.Valid()
    ensures resource != env && image != env
    ensures resource.Tree == Node(resource, [Node(image, [Node(env, [])])])
  {
    env := new AtomBuilder(EnvBuilder, ocl);
    image := new AtomBuilder(ImageBuilder, ocl);
    resource := new AtomBuilder(ResourceBuilder, ocl);
    image.AddSubBuilder(env);
    assert image.Tree == Node(image, [Node(env, [])]);
    resource.AddSubBuilder(image);
  }

  /** An image builder with two env builders added in order. */
  method MakePair(ocl: Ocl) returns (image: AtomBuilder, env: AtomBuilder, env2: AtomBuilder)
    ensures image.Valid()
    ensures image != env && image != env2 && env != env2
    ensures image.Tree == Node(image, [Node(env, []), Node(env2, [])])
  {
    env := new AtomBuilder(EnvBuilder, ocl);
    env2 := new AtomBuilder(EnvBuilder, ocl);
    image := new AtomBuilder(ImageBuilder, ocl);
    image.AddSubBuilder(env);
    assert image.Tree == Node(image, [Node(env, [])]);
    image.AddSubBuilder(env2);
  }

  /** A resource builder over the image builder of `MakePair`. */
  method MakeTree(ocl: Ocl) returns (resource: AtomBuilder, image: AtomBuilder, env: AtomBuilder, env2: AtomBuilder)
    ensures resource.Valid()
    ensures resource != image && resource != env && resource != env2
    ensures image != env && image != env2 && env != env2
    ensures resource.Tree == Node(resource, [Node(image, [Node(env, []), Node(env2, [])])])
  {
    image, env, env2 := MakePair(ocl);
    resource := new AtomBuilder(ResourceBuilder, ocl);
    resource.AddSubBuilder(image);
  }

  /** Resource builder over one image builder, and a separate env builder; every create
      step succeeds. The env and resource builds both succeed and each of the resource
      and image builders runs its create step once. */
  method BuilderList(ocl: Ocl) returns (envOk: Result<bool>, resourceOk: Result<bool>, resourceCreates: nat, imageCreates: nat)
    ensures envOk == Ok(true) && resourceOk == Ok(true)
    ensures resourceCreates == 1 && imageCreates == 1
  {
    var resource, image := MakeList(ocl);
    var env := new AtomBuilder(EnvBuilder, ocl);
    ListTraces(resource, image);
    var creates := b => Ok(true);
    NothingThrows(BuildTrace(env.Tree), creates);
    NothingThrows(BuildTrace(resource.Tree), creates);
    var created;
    envOk, created := env.Build(creates);
    resourceOk, created := resource.Build(creates);
    resourceCreates, imageCreates := multiset(created)[resource], multiset(created)[image];
  }

  /** As above, but the image builder's create step returns false: the resource build
      still succeeds, and, in this model of `build`, the image builder's create step was
      still run once. */
  method BuilderListFailed(ocl: Ocl) returns (envOk: Result<bool>, resourceOk: Result<bool>, imageCreates: nat)
    ensures envOk == Ok(true) && resourceOk == Ok(true)
    ensures imageCreates == 1
  {
    var resource, image := MakeList(ocl);
    var env := new AtomBuilder(EnvBuilder, ocl);
    ListTraces(resource, image);
    var creates := b => Ok(b != image);
    NothingThrows(BuildTrace(env.Tree), creates);
    NothingThrows(BuildTrace(resource.Tree), creates);
    var created;
    envOk, created := env.Build(creates);
    assert envOk == Ok(true);
    resourceOk, created := resource.Build(creates);
    assert resourceOk == Ok(true);
    imageCreates := multiset(created)[image];
  }

  /** Resource over image over env, every destroy step succeeding: the rollback succeeds
      and reaches the env builder's destroy step exactly once. */
  method BuilderListRollback(ocl: Ocl) returns (ok: bool, envDestroys: nat)
    ensures ok && envDestroys == 1
  {
    var resource, image, env := MakeChain(ocl);
    var destroys := b => Ok(true);
    ChainTraces(resource, image, env, destroys);
    var destroyed;
    ok, destroyed := resource.Rollback(destroys);
    envDestroys := multiset(destroyed)[env];
  }

  /** Resource over an image builder with two env builders: the rollback succeeds and
      destroys each leaf and the image builder exactly once. */
  method BuilderTreeRollback(ocl: Ocl) returns (ok: bool, envDestroys: nat, env2Destroys: nat, imageDestroys: nat)
    ensures ok
    ensures envDestroys == 1 && env2Destroys == 1 && imageDestroys == 1
  {
    var resource, image, env, env2 := MakeTree(ocl);
    var destroys := b => Ok(true);
    TreeTraces(resource, image, env, env2, destroys);
    var destroyed;
    ok, destroyed := resource.Rollback(destroys);
    envDestroys, env2Destroys, imageDestroys :=
      multiset(destroyed)[env], multiset(destroyed)[env2], multiset(destroyed)[image];
  }

  /** Resource over image over env, with the env builder's destroy step failing: the
      rollback fails, yet the env builder is still destroyed exactly once. */
  method BuilderListRollbackFailed(ocl: Ocl) returns (ok: bool, envDestroys: nat)
    ensures !ok && envDestroys == 1
  {
    var resource, image, env := MakeChain(ocl);
    var destroys := b => Ok(b != env);
    assert destroys(env) == Ok(false);
    ChainTraces(resource, image, env, destroys);
    var destroyed;
    ok, destroyed := resource.Rollback(destroys);
    envDestroys := multiset(destroyed)[env];
  }
}
