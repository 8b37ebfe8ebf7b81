/** The builder factory: a dispatch from a builder-type string to a new builder tree
    bound to the given descriptor. */
module Factory {
  import opened Common
  import opened Descriptor
  import opened Composite

  const EnvType := "env"
  const BasicType := "basic"
  const BasicDeprecatedType := "basic_deprecated"

  const InvalidTypeMessage := "Builder Type is in valid."

  /** The shape of a builder tree by builder kind. */
  datatype Blueprint = Blueprint(kind: BuilderKind, children: seq<Blueprint>)

  /** The kinds of the builders of a tree, in its shape. */
  function Kinds(t: Node): (r: Blueprint)
    ensures r.kind == t.builder.kind && |r.children| == |t.children|
    decreases t
  {
    Blueprint(t.builder.kind, KindsOf(t.children))
  }

  function KindsOf(ts: seq<Node>): (r: seq<Blueprint>)
    ensures |r| == |ts|
    decreases ts
  {
    if ts == [] then [] else [Kinds(ts[0])] + KindsOf(ts[1..])
  }

  /** What `createBuilder` makes of each type string: an env builder, a resource builder
      alone, a resource builder over an image builder, or the error. */
  function Plan(builderType: string): (r: Result<Blueprint>)
    ensures r.Ok? <==> builderType in {EnvType, BasicType, BasicDeprecatedType}
    ensures r.Err? ==> r.error == IllegalState(InvalidTypeMessage)
  {
    if builderType == EnvType then Ok(Blueprint(EnvBuilder, []))
    else if builderType == BasicType then Ok(Blueprint(ResourceBuilder, []))
    else if builderType == BasicDeprecatedType then
      Ok(Blueprint(ResourceBuilder, [Blueprint(ImageBuilder, [])]))
    else Err(IllegalState(InvalidTypeMessage))
  }

  /** The three type constants are pairwise distinct, so at most one branch of the
      dispatch applies; the env type yields a lone env builder, the basic type a resource
      builder without sub-builders, and the deprecated basic type a resource builder with
      exactly one sub-builder, an image builder. */
  lemma PlanBranches()
    ensures EnvType != BasicType && EnvType != BasicDeprecatedType && BasicType != BasicDeprecatedType
    ensures Plan(EnvType) == Ok(Blueprint(EnvBuilder, []))
    ensures Plan(BasicType).Ok? && Plan(BasicType).value.kind == ResourceBuilder
    ensures Plan(BasicType).value.children == []
    ensures Plan(BasicDeprecatedType).Ok? && Plan(BasicDeprecatedType).value.kind == ResourceBuilder
    ensures Plan(BasicDeprecatedType).value.children == [Blueprint(ImageBuilder, [])]
  {
    assert EnvType[0] != BasicType[0];
    assert EnvType[0] != BasicDeprecatedType[0];
    assert |BasicType| != |BasicDeprecatedType|;
  }

  /** `createBuilder(builderType, ocl)`: a new builder tree of the planned shape, every
      builder bound to `ocl`, or the `IllegalStateException`; never a null builder. */
  method CreateBuilder(builderType: string, ocl: Ocl) returns (r: Result<AtomBuilder>)
    ensures r.Ok? <==> Plan(builderType).Ok?
    ensures r.Err? ==> r.error == Plan(builderType).error
    ensures r.Ok? ==> r.value.Valid() && fresh(r.value.Repr)
    ensures r.Ok? ==> Kinds(r.value.Tree) == Plan(builderType).value
    ensures r.Ok? ==> r.value.ocl == ocl
    ensures r.Ok? ==> forall c :: 0 <= c < |r.value.subBuilders| ==> r.value.subBuilders[c].ocl == ocl
    ensures r.Ok? && builderType != BasicDeprecatedType ==> r.value.Tree == Node(r.value, [])
  {
    if builderType == EnvType {
      var env := new AtomBuilder(EnvBuilder, ocl);
      return Ok(env);
    }
    if builderType == BasicType {
      var resource := new AtomBuilder(ResourceBuilder, ocl);
      return Ok(resource);
    }
    if builderType == BasicDeprecatedType {
      var image := new AtomBuilder(ImageBuilder, ocl);
      var resource := new AtomBuilder(ResourceBuilder, ocl);
      resource.AddSubBuilder(image);
      assert KindsOf([Node(image, [])]) == [Blueprint(ImageBuilder, [])];
      return Ok(resource);
    }
    return Err(IllegalState(InvalidTypeMessage));
  }
}
