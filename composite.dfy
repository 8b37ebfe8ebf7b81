/** The builder composite (`AtomBuilder`): a tree of builders, each with its own
    create and destroy steps. `Build` builds every child in list order and then runs the
    node's own create step; a create step that throws ends the whole build with its
    exception. `Rollback` runs the node's own destroy step and then rolls back every child,
    last child first, without stopping at a failure; a destroy step that throws counts as
    a failed step. The outcome of each node's own create and destroy step is a parameter
    (`creates`, `destroys`), `Err` standing for a thrown `BuilderException`: these are the
    per-builder steps that the test stubs, and each call is recorded in the returned
    trace, which is what the test's call counts observe. */
module Composite {
  import opened Common
  import opened Descriptor

  datatype BuilderKind = EnvBuilder | ImageBuilder | ResourceBuilder

  const EnvBuilderName := "Huawei-Cloud-env-Builder"
  const ResourceBuilderName := "Huawei-Cloud-resource-Builder"

  /** `name()` of each builder kind; the image builder's name is not known to the model. */
  function KindName(k: BuilderKind): (r: Option<string>)
    ensures r.Some? <==> !k.ImageBuilder?
    ensures k.EnvBuilder? ==> r == Some(EnvBuilderName)
    ensures k.ResourceBuilder? ==> r == Some(ResourceBuilderName)
  {
    match k
    case EnvBuilder => Some(EnvBuilderName)
    case ResourceBuilder => Some(ResourceBuilderName)
    case ImageBuilder => None
  }

  /** The abstract shape of a builder tree: each node is a builder object. */
  datatype Node = Node(builder: AtomBuilder, children: seq<Node>)

  /** Every builder of the tree, the node first, then each child's subtree in list order. */
  function Nodes(t: Node): seq<AtomBuilder>
    decreases t
  {
    [t.builder] + NodesOf(t.children)
  }

  function NodesOf(ts: seq<Node>): seq<AtomBuilder>
    decreases ts
  {
    if ts == [] then [] else Nodes(ts[0]) + NodesOf(ts[1..])
  }

  /** The builders whose own create step a build runs, in call order: every child's
      subtree in list order, then the node itself. */
  function BuildTrace(t: Node): seq<AtomBuilder>
    decreases t
  {
    BuildAll(t.children) + [t.builder]
  }

  function BuildAll(ts: seq<Node>): seq<AtomBuilder>
    decreases ts
  {
    if ts == [] then [] else BuildAll(ts[..|ts| - 1]) + BuildTrace(ts[|ts| - 1])
  }

  /** The builders whose own destroy step a rollback runs, in call order: the node
      itself, then every child's subtree, last child first. */
  function RollbackTrace(t: Node): seq<AtomBuilder>
    decreases t
  {
    [t.builder] + RollbackAll(t.children)
  }

  function RollbackAll(ts: seq<Node>): seq<AtomBuilder>
    decreases ts
  {
    if ts == [] then [] else RollbackAll(ts[1..]) + RollbackTrace(ts[0])
  }

  /** Some builder of `s`, in this order, has a create step that throws. */
  predicate Throws(s: seq<AtomBuilder>, creates: AtomBuilder -> Result<bool>)
  {
    exists i :: 0 <= i < |s| && creates(s[i]).Err?
  }

  lemma ThrowsCons(s: seq<AtomBuilder>, creates: AtomBuilder -> Result<bool>)
    requires s != []
    ensures Throws(s, creates) <==> creates(s[0]).Err? || Throws(s[1..], creates)
  {
    if Throws(s[1..], creates) {
      var i :| 0 <= i < |s[1..]| && creates(s[1..][i]).Err?;
      assert creates(s[i + 1]).Err?;
    }
    if Throws(s, creates) && creates(s[0]).Ok? {
      var i :| 0 <= i < |s| && creates(s[i]).Err?;
      assert creates(s[1..][i - 1]).Err?;
    }
  }

  /** How many create steps a build runs over the builders `s`, in this order: up to and
      including the first one that throws, or all of them. */
  function CreatesRun(s: seq<AtomBuilder>, creates: AtomBuilder -> Result<bool>): (n: nat)
    ensures n <= |s| && (s != [] ==> n > 0)
    ensures forall i :: 0 <= i < n - 1 ==> creates(s[i]).Ok?
    ensures Throws(s, creates) <==> n > 0 && creates(s[n - 1]).Err?
  {
    if s == [] then 0
    else
      ThrowsCons(s, creates);
      if creates(s[0]).Err? then 1
      else
        var n := 1 + CreatesRun(s[1..], creates);
        assert forall i :: 1 <= i < n - 1 ==> s[i] == s[1..][i - 1];
        n
  }

  /** Over a concatenation, the steps of the second part run only when the first part
      does not throw. */
  lemma {:induction false} CreatesRunAppend(a: seq<AtomBuilder>, b: seq<AtomBuilder>, creates: AtomBuilder -> Result<bool>)
    ensures Throws(a + b, creates) <==> Throws(a, creates) || Throws(b, creates)
    ensures CreatesRun(a + b, creates) == if Throws(a, creates) then CreatesRun(a, creates) else |a| + CreatesRun(b, creates)
  {
    if a == [] {
      assert a + b == b;
    } else {
      assert (a + b)[0] == a[0] && (a + b)[1..] == a[1..] + b;
      CreatesRunAppend(a[1..], b, creates);
      ThrowsCons(a, creates);
      ThrowsCons(a + b, creates);
    }
  }

  /** A rollback succeeds when the node's own destroy step and every child's rollback do;
      a destroy step that throws is a failed one. */
  predicate RollbackOk(t: Node, destroys: AtomBuilder -> Result<bool>)
    decreases t
  {
    destroys(t.builder) == Ok(true) && RollbackOkAll(t.children, destroys)
  }

  predicate RollbackOkAll(ts: seq<Node>, destroys: AtomBuilder -> Result<bool>)
    decreases ts
  {
    ts == [] || (RollbackOk(ts[0], destroys) && RollbackOkAll(ts[1..], destroys))
  }

  /** No builder occurs twice. */
  predicate Distinct<T(==)>(s: seq<T>)
  {
    forall i, j :: 0 <= i < j < |s| ==> s[i] != s[j]
  }

  lemma {:induction false} DistinctOccursOnce<T>(s: seq<T>, x: T)
    requires Distinct(s) && x in s
    ensures multiset(s)[x] == 1
  {
    assert s == [s[0]] + s[1..];
    if s[0] == x {
      assert x !in s[1..];
    } else {
      DistinctOccursOnce(s[1..], x);
    }
  }

  lemma DistinctConcat<T>(a: seq<T>, b: seq<T>)
    requires Distinct(a) && Distinct(b)
    requires forall x :: x in a ==> x !in b
    ensures Distinct(a + b)
  {
    forall i, j | 0 <= i < j < |a + b| ensures (a + b)[i] != (a + b)[j] {
      if j >= |a| && i < |a| {
        assert (a + b)[i] in a && (a + b)[j] in b;
      }
    }
  }

  lemma {:induction false} NodesOfAppend(a: seq<Node>, b: seq<Node>)
    ensures NodesOf(a + b) == NodesOf(a) + NodesOf(b)
  {
    if a == [] {
      assert a + b == b;
    } else {
      assert (a + b)[1..] == a[1..] + b;
      NodesOfAppend(a[1..], b);
    }
  }

  /** A build runs the create step of every builder of the tree exactly as often as the
      builder occurs in it. */
  lemma {:induction false} BuildTraceIsNodes(t: Node)
    ensures multiset(BuildTrace(t)) == multiset(Nodes(t))
    decreases t
  {
    BuildAllIsNodes(t.children);
  }

  lemma {:induction false} BuildAllIsNodes(ts: seq<Node>)
    ensures multiset(BuildAll(ts)) == multiset(NodesOf(ts))
    decreases ts
  {
    if ts != [] {
      var init, last := ts[..|ts| - 1], ts[|ts| - 1];
      BuildAllIsNodes(init);
      BuildTraceIsNodes(last);
      assert ts == init + [last];
      NodesOfAppend(init, [last]);
      assert [last][1..] == [];
    }
  }

  /** A rollback runs the destroy step of every builder of the tree exactly as often as the
      builder occurs in it, whatever the steps return. */
  lemma {:induction false} RollbackTraceIsNodes(t: Node)
    ensures multiset(RollbackTrace(t)) == multiset(Nodes(t))
    decreases t
  {
    RollbackAllIsNodes(t.children);
  }

  lemma {:induction false} RollbackAllIsNodes(ts: seq<Node>)
    ensures multiset(RollbackAll(ts)) == multiset(NodesOf(ts))
    decreases ts
  {
    if ts != [] {
      RollbackAllIsNodes(ts[1..]);
      RollbackTraceIsNodes(ts[0]);
    }
  }

  /** In a tree without repeated builders, a build creates each builder exactly once and
      nothing else. */
  lemma BuildCreatesEachOnce(t: Node, b: AtomBuilder)
    requires Distinct(Nodes(t))
    ensures multiset(BuildTrace(t))[b] == if b in Nodes(t) then 1 else 0
  {
    BuildTraceIsNodes(t);
    if b in Nodes(t) {
      DistinctOccursOnce(Nodes(t), b);
    }
  }

  /** In a tree without repeated builders, a rollback destroys each builder exactly once
      and nothing else, even when destroy steps fail. */
  lemma RollbackDestroysEachOnce(t: Node, b: AtomBuilder)
    requires Distinct(Nodes(t))
    ensures multiset(RollbackTrace(t))[b] == if b in Nodes(t) then 1 else 0
  {
    RollbackTraceIsNodes(t);
    if b in Nodes(t) {
      DistinctOccursOnce(Nodes(t), b);
    }
  }

  /** A rollback reports success exactly when every builder's destroy step succeeded. */
  lemma {:induction false} RollbackOkIffAllDestroyed(t: Node, destroys: AtomBuilder -> Result<bool>)
    ensures RollbackOk(t, destroys) <==> forall b :: b in Nodes(t) ==> destroys(b) == Ok(true)
    decreases t
  {
    RollbackOkAllIffAllDestroyed(t.children, destroys);
  }

  lemma {:induction false} RollbackOkAllIffAllDestroyed(ts: seq<Node>, destroys: AtomBuilder -> Result<bool>)
    ensures RollbackOkAll(ts, destroys) <==> forall b :: b in NodesOf(ts) ==> destroys(b) == Ok(true)
    decreases ts
  {
    if ts != [] {
      RollbackOkIffAllDestroyed(ts[0], destroys);
      RollbackOkAllIffAllDestroyed(ts[1..], destroys);
    }
  }

  /** The full build trace of the children of a list of nodes splits at any point. */
  lemma {:induction false} BuildAllAppend(a: seq<Node>, b: seq<Node>)
    ensures BuildAll(a + b) == BuildAll(a) + BuildAll(b)
    decreases |b|
  {
    if b == [] {
      assert a + b == a;
    } else {
      var init := b[..|b| - 1];
      assert (a + b)[..|a + b| - 1] == a + init && (a + b)[|a + b| - 1] == b[|b| - 1];
      BuildAllAppend(a, init);
    }
  }

  /** A builder that heads a tree without repeated builders does not occur below it. */
  lemma RootNotBelow(t: Node)
    requires Distinct(Nodes(t))
    ensures t.builder !in BuildAll(t.children)
  {
    var ns := NodesOf(t.children);
    assert Nodes(t) == [t.builder] + ns;
    assert Nodes(t)[0] == t.builder;
    forall j | 0 <= j < |ns| ensures ns[j] != t.builder {
      assert Nodes(t)[j + 1] == ns[j];
    }
    BuildAllIsNodes(t.children);
    assert multiset(ns)[t.builder] == 0;
  }

  /** When a create step below a node throws, the build ends before the node's own create
      step runs. */
  lemma ThrowSkipsParent(t: Node, creates: AtomBuilder -> Result<bool>)
    requires Distinct(Nodes(t)) && Throws(BuildAll(t.children), creates)
    ensures t.builder !in BuildTrace(t)[..CreatesRun(BuildTrace(t), creates)]
  {
    var below := BuildAll(t.children);
    CreatesRunAppend(below, [t.builder], creates);
    var n := CreatesRun(below, creates);
    assert BuildTrace(t)[..n] == below[..n];
    RootNotBelow(t);
    assert forall x :: x in below[..n] ==> x in below;
  }

  /** The full build trace of a list of nodes around its subtree `i`. */
  lemma BuildAllAround(ts: seq<Node>, i: nat)
    requires i < |ts|
    ensures BuildAll(ts) == BuildAll(ts[..i]) + BuildTrace(ts[i]) + BuildAll(ts[i + 1..])
  {
    var upto, rest := ts[..i + 1], ts[i + 1..];
    assert BuildAll(upto) == BuildAll(ts[..i]) + BuildTrace(ts[i]) by {
      assert upto[..|upto| - 1] == ts[..i] && upto[|upto| - 1] == ts[i];
    }
    assert ts == upto + rest;
    BuildAllAppend(upto, rest);
  }

  lemma Regroup<T>(a: seq<T>, b: seq<T>, c: seq<T>, d: seq<T>)
    ensures a + b + c + d == a + (b + (c + d))
  {
  }

  /** Steps that throw inside the middle part of a run end it there. */
  lemma RunStopsInside(before: seq<AtomBuilder>, mid: seq<AtomBuilder>, after: seq<AtomBuilder>,
                       creates: AtomBuilder -> Result<bool>, c: seq<AtomBuilder>)
    requires !Throws(before, creates) && Throws(mid, creates)
    requires c == mid[..CreatesRun(mid, creates)]
    ensures Throws(before + (mid + after), creates)
    ensures before + c == (before + (mid + after))[..CreatesRun(before + (mid + after), creates)]
  {
    CreatesRunAppend(before, mid + after, creates);
    CreatesRunAppend(mid, after, creates);
    assert (before + (mid + after))[..|before| + |c|] == before + c;
  }

  /** A build over the nodes `ts`, none of whose first `i` subtrees throws, whose subtree
      `i` throws after the steps `c`: it stops there, before the later subtrees and before
      the parent `self`. */
  lemma BuildStopsInChild(ts: seq<Node>, i: nat, self: AtomBuilder, creates: AtomBuilder -> Result<bool>, c: seq<AtomBuilder>)
    requires i < |ts| && !Throws(BuildAll(ts[..i]), creates)
    requires Throws(BuildTrace(ts[i]), creates)
    requires c == BuildTrace(ts[i])[..CreatesRun(BuildTrace(ts[i]), creates)]
    ensures Throws(BuildAll(ts) + [self], creates)
    ensures BuildAll(ts[..i]) + c == (BuildAll(ts) + [self])[..CreatesRun(BuildAll(ts) + [self], creates)]
  {
    var before, mid, after := BuildAll(ts[..i]), BuildTrace(ts[i]), BuildAll(ts[i + 1..]) + [self];
    BuildAllAround(ts, i);
    Regroup(before, mid, BuildAll(ts[i + 1..]), [self]);
    RunStopsInside(before, mid, after, creates, c);
  }

  /** A build over the nodes `ts` whose subtree `i` does not throw either goes on to the
      next subtree. */
  lemma BuildPassesChild(ts: seq<Node>, i: nat, creates: AtomBuilder -> Result<bool>)
    requires i < |ts| && !Throws(BuildAll(ts[..i]), creates) && !Throws(BuildTrace(ts[i]), creates)
    ensures BuildAll(ts[..i + 1]) == BuildAll(ts[..i]) + BuildTrace(ts[i])
    ensures !Throws(BuildAll(ts[..i + 1]), creates)
  {
    assert ts[..i + 1][..i] == ts[..i];
    CreatesRunAppend(BuildAll(ts[..i]), BuildTrace(ts[i]), creates);
  }

  /** A build whose subtrees do not throw ends with the parent's own create step. */
  lemma BuildReachesParent(ts: seq<Node>, self: AtomBuilder, creates: AtomBuilder -> Result<bool>)
    requires !Throws(BuildAll(ts), creates)
    ensures CreatesRun(BuildAll(ts) + [self], creates) == |BuildAll(ts)| + 1
    ensures Throws(BuildAll(ts) + [self], creates) <==> creates(self).Err?
  {
    CreatesRunAppend(BuildAll(ts), [self], creates);
    ThrowsCons([self], creates);
    assert [self][1..] == [];
  }

  /** A build creates the node itself last, after every builder below it; a rollback
      destroys the node itself first, before every builder below it. */
  lemma ParentOrder(t: Node)
    ensures |BuildTrace(t)| > 0 && BuildTrace(t)[|BuildTrace(t)| - 1] == t.builder
    ensures multiset(BuildTrace(t)[..|BuildTrace(t)| - 1]) == multiset(NodesOf(t.children))
    ensures RollbackTrace(t)[0] == t.builder
    ensures multiset(RollbackTrace(t)[1..]) == multiset(NodesOf(t.children))
  {
    BuildAllIsNodes(t.children);
    RollbackAllIsNodes(t.children);
    assert BuildTrace(t)[..|BuildTrace(t)| - 1] == BuildAll(t.children);
    assert RollbackTrace(t)[1..] == RollbackAll(t.children);
  }

  /** The traces of a leaf, of a node with one child and of a node with two children. */
  lemma SmallTreeTraces(b: AtomBuilder, c1: Node, c2: Node, destroys: AtomBuilder -> Result<bool>)
    ensures BuildTrace(Node(b, [])) == [b] && RollbackTrace(Node(b, [])) == [b]
    ensures RollbackOk(Node(b, []), destroys) == (destroys(b) == Ok(true))
    ensures BuildTrace(Node(b, [c1])) == BuildTrace(c1) + [b]
    ensures RollbackTrace(Node(b, [c1])) == [b] + RollbackTrace(c1)
    ensures RollbackOk(Node(b, [c1]), destroys) == (destroys(b) == Ok(true) && RollbackOk(c1, destroys))
    ensures RollbackTrace(Node(b, [c1, c2])) == [b] + RollbackTrace(c2) + RollbackTrace(c1)
    ensures RollbackOk(Node(b, [c1, c2]), destroys)
            == (destroys(b) == Ok(true) && RollbackOk(c1, destroys) && RollbackOk(c2, destroys))
  {
    assert [c1][..0] == [] && [c1][1..] == [];
    assert [c1, c2][1..] == [c2] && [c2][1..] == [];
    assert RollbackAll([c2]) == RollbackTrace(c2);
    assert RollbackOkAll([c2], destroys) == RollbackOk(c2, destroys);
  }

  /** A builder tree node as an object: `addSubBuilder` appends to `subBuilders`.
      `Tree` is the abstract shape of the subtree rooted here and `Repr` the objects it
      is made of; `Valid` ties both to the fields and keeps the tree acyclic with
      disjoint sibling subtrees. */
  class AtomBuilder {
    const kind: BuilderKind
    const ocl: Ocl
    var subBuilders: seq<AtomBuilder>
    ghost var Tree: Node
    ghost var Repr: set<object>

    ghost predicate Valid()
      reads this, Repr
      decreases Repr
    {
      && this in Repr
      && Tree.builder == this
      && |Tree.children| == |subBuilders|
      && (forall i :: 0 <= i < |subBuilders| ==>
            && subBuilders[i] in Repr
            && subBuilders[i].Repr <= Repr
            && this !in subBuilders[i].Repr
            && subBuilders[i].Valid()
            && subBuilders[i].Tree == Tree.children[i])
      && (forall i, j :: 0 <= i < j < |subBuilders| ==> subBuilders[i].Repr !! subBuilders[j].Repr)
    }

    /** A new builder of the given kind, bound to `ocl`, without sub-builders. */
    constructor (kind: BuilderKind, ocl: Ocl)
      ensures Valid()
      ensures this.kind == kind && this.ocl == ocl
      ensures subBuilders == [] && Tree == Node(this, []) && Repr == {this}
    {
      this.kind := kind;
      this.ocl := ocl;
      subBuilders := [];
      Tree := Node(this, []);
      Repr := {this};
    }

    /** `name()`. */
    function Name(): (r: Option<string>)
      ensures r.Some? <==> kind != ImageBuilder
    {
      KindName(kind)
    }

    /** `addSubBuilder(child)`: appends `child` as the last sub-builder. */
    method AddSubBuilder(child: AtomBuilder)
      requires Valid() && child.Valid()
      requires Repr !! child.Repr
      modifies this
      ensures Valid()
      ensures subBuilders == old(subBuilders) + [child]
      ensures Tree == Node(this, old(Tree.children) + [child.Tree])
      ensures Repr == old(Repr) + child.Repr
    {
      subBuilders := subBuilders + [child];
      Tree := Node(this, Tree.children + [child.Tree]);
      Repr := Repr + child.Repr;
    }

    /** `build(ctx)`: builds every sub-builder in list order, whatever each returns, then
        runs this builder's own create step, whose result is the result. A create step
        that throws ends the build there, and its exception is the result. */
    method Build(creates: AtomBuilder -> Result<bool>) returns (r: Result<bool>, created: seq<AtomBuilder>)
      requires Valid()
      ensures created == BuildTrace(Tree)[..CreatesRun(BuildTrace(Tree), creates)]
      ensures created != [] && r == creates(created[|created| - 1])
      ensures r.Err? <==> Throws(BuildTrace(Tree), creates)
      ensures !Throws(BuildTrace(Tree), creates) ==> r == creates(this) && created == BuildTrace(Tree)
      decreases Repr
    {
      created := [];
      var i := 0;
      while i < |subBuilders|
        invariant 0 <= i <= |subBuilders|
        invariant created == BuildAll(Tree.children[..i])
        invariant !Throws(created, creates)
      {
        var childR, c := subBuilders[i].Build(creates);
        if childR.Err? {
          BuildStopsInChild(Tree.children, i, this, creates, c);
          created := created + c;
          r := childR;
          return;
        }
        BuildPassesChild(Tree.children, i, creates);
        created := created + c;
        i := i + 1;
      }
      assert Tree.children[..i] == Tree.children;
      BuildReachesParent(Tree.children, this, creates);
      r := creates(this);
      created := created + [this];
    }

    /** `rollback(ctx)`: runs this builder's own destroy step, then rolls back every
        sub-builder, last first, even after a failure or an exception; succeeds only if
        all of them returned true. */
    method Rollback(destroys: AtomBuilder -> Result<bool>) returns (ok: bool, destroyed: seq<AtomBuilder>)
      requires Valid()
      ensures ok == RollbackOk(Tree, destroys)
      ensures destroyed == RollbackTrace(Tree)
      decreases Repr
    {
      ok := destroys(this) == Ok(true);
      destroyed := [this];
      var i := |subBuilders|;
      assert Tree.children[i..] == [];
      while i > 0
        invariant 0 <= i <= |subBuilders|
        invariant destroyed == [this] + RollbackAll(Tree.children[i..])
        invariant ok == (destroys(this) == Ok(true) && RollbackOkAll(Tree.children[i..], destroys))
      {
        i := i - 1;
        var childOk, d := subBuilders[i].Rollback(destroys);
        assert Tree.children[i..][1..] == Tree.children[i + 1..];
        destroyed := destroyed + d;
        ok := ok && childOk;
      }
      assert Tree.children[0..] == Tree.children;
    }

    /** A valid tree never holds the same builder twice, and holds only its own objects. */
    lemma TreeIsDistinct()
      requires Valid()
      ensures Distinct(Nodes(Tree))
      ensures forall b :: b in Nodes(Tree) ==> b in Repr
      decreases Repr
    {
      var cs := Tree.children;
      ghost var covered: set<object> := {};
      var k := 0;
      assert cs[..0] == [];
      while k < |cs|
        invariant 0 <= k <= |cs|
        invariant Distinct(NodesOf(cs[..k]))
        invariant forall b :: b in NodesOf(cs[..k]) ==> b in covered
        invariant covered <= Repr && this !in covered
        invariant forall j :: k <= j < |cs| ==> covered !! subBuilders[j].Repr
      {
        subBuilders[k].TreeIsDistinct();
        NodesOfAppend(cs[..k], [cs[k]]);
        assert cs[..k + 1] == cs[..k] + [cs[k]];
        assert [cs[k]][1..] == [];
        assert NodesOf([cs[k]]) == Nodes(cs[k]);
        DistinctConcat(NodesOf(cs[..k]), Nodes(cs[k]));
        covered := covered + subBuilders[k].Repr;
        k := k + 1;
      }
      assert cs[..k] == cs;
      DistinctConcat([this], NodesOf(cs));
    }
  }
}
