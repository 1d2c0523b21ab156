/**
 Templates of a generated workflow on the heap. A step that adds to its build container gets a copy of one of two
 global templates. The copy shares nothing that is ever written with the original or with another copy.
 */
module Templates {
  import opened Options
  import opened Text
  import opened Steps
  import opened WorkflowCompiler

  const ARTIFACT_KEY_PREFIX := "workflow-artifacts/{{workflow.name}}/{{pod.name}}"

  // A container; `spec` stands for the fields that are never changed.
  datatype Node = Node(spec: string, mounts: seq<string>)

  class ContainerSet {
    var containers: array<Node>
    const mounts: seq<string>    // of every container in the set

    constructor (containers: array<Node>, mounts: seq<string>)
      ensures this.containers == containers && this.mounts == mounts
    {
      this.containers := containers;
      this.mounts := mounts;
    }
  }

  datatype Output = Output(name: string, path: string, key: string, optional: bool)

  datatype Template = Template(name: string, volumes: seq<string>, containerSet: ContainerSet, outputs: seq<Output>)

  // A template with its containers spelled out.
  datatype Contents = Contents(
    name: string, volumes: seq<string>, containers: seq<Node>, mounts: seq<string>, outputs: seq<Output>)

  function Read(t: Template): Contents
    reads t.containerSet, t.containerSet.containers
  {
    Contents(t.name, t.volumes, t.containerSet.containers[..], t.containerSet.mounts, t.outputs)
  }

  function OutputOf(a: Artifact, i: nat): Output {
    Output("artifact" + Decimal(i), "/artifacts" + a.path, ARTIFACT_KEY_PREFIX + "/" + a.key, a.optional == Some(true))
  }

  function OutputsOf(artifacts: seq<Artifact>): seq<Output> {
    seq(|artifacts|, i requires 0 <= i < |artifacts| => OutputOf(artifacts[i], i))
  }

  /** `base` as step number `i` needs it. */
  function Specialised(base: Contents, i: nat, x: Extras): Contents
    requires base.containers != []
  {
    var first := base.containers[0];
    Contents(InlineName(base.name, i), base.volumes + x.volumes,
             base.containers[0 := first.(mounts := first.mounts + x.mounts)],
             base.mounts, base.outputs + OutputsOf(x.artifacts))
  }

  method GetStepArtifacts(artifacts: seq<Artifact>) returns (stepArtifacts: seq<Output>)
    ensures stepArtifacts == OutputsOf(artifacts)
  {
    stepArtifacts := [];
    for i := 0 to |artifacts|
      invariant stepArtifacts == OutputsOf(artifacts[..i])
    {
      var optional := artifacts[i].optional.Some? && artifacts[i].optional.value;
      stepArtifacts := stepArtifacts + [Output("artifact" + Decimal(i), "/artifacts" + artifacts[i].path,
                                               ARTIFACT_KEY_PREFIX + "/" + artifacts[i].key, optional)];
      assert OutputsOf(artifacts[..i + 1]) == OutputsOf(artifacts[..i]) + [OutputOf(artifacts[i], i)];
    }
    assert artifacts[..|artifacts|] == artifacts;
  }

  /** The copy of a global template for one step. Nothing that existed before is written. */
  method Specialise(global: Template, i: nat, x: Extras) returns (template: Template)
    requires global.containerSet.containers.Length > 0
    ensures fresh(template.containerSet) && fresh(template.containerSet.containers)
    ensures Read(template) == Specialised(old(Read(global)), i, x)
  {
    template := global;
    template := template.(name := template.name + Decimal(i), volumes := template.volumes + x.volumes);

    var templateContainerSetCopy := new ContainerSet(template.containerSet.containers, template.containerSet.mounts);
    template := template.(containerSet := templateContainerSetCopy);

    var containers := template.containerSet.containers;
    var templateContainersCopy :=
      new Node[containers.Length](j requires 0 <= j < containers.Length reads containers => containers[j]);
    templateContainerSetCopy.containers := templateContainersCopy;
    assert templateContainersCopy[..] == old(global.containerSet.containers[..]);

    templateContainersCopy[0] := templateContainersCopy[0].(mounts := templateContainersCopy[0].mounts + x.mounts);

    var stepArtifacts := GetStepArtifacts(x.artifacts);
    template := template.(outputs := template.outputs + stepArtifacts);
  }

  // The contents of the inline templates, in step order.
  function InlineContents(steps: seq<Step>, n: nat, test: Contents, publish: Contents): seq<Contents>
    requires n <= |steps| && test.containers != [] && publish.containers != []
  {
    if n == 0 then []
    else
      var front, s := InlineContents(steps, n - 1, test, publish), steps[n - 1];
      if NeedsInline(s) then
        front + [Specialised(if s.DockerBuildTest? then test else publish, n - 1, s.extras)]
      else front
  }

  // No container set or container array is shared by two of the templates.
  predicate Unshared(ts: seq<Template>)
    reads set t <- ts :: t.containerSet
  {
    forall i, j :: 0 <= i < j < |ts| ==>
      ts[i].containerSet != ts[j].containerSet && ts[i].containerSet.containers != ts[j].containerSet.containers
  }

  ghost predicate Show(ts: seq<Template>, contents: seq<Contents>)
    reads set t <- ts :: t.containerSet, set t <- ts :: t.containerSet.containers
  {
    |ts| == |contents| && forall i :: 0 <= i < |ts| ==> Read(ts[i]) == contents[i]
  }

  /**
   All inline templates of a Flow. The global templates are only read, so compiling again, in any later state in
   which they still are what they were, gives templates with the same contents.
   */
  method GetAdditionalTemplates(steps: seq<Step>, test: Template, publish: Template) returns (additional: seq<Template>)
    requires test.containerSet.containers.Length > 0 && publish.containerSet.containers.Length > 0
    ensures forall t <- additional :: fresh(t.containerSet) && fresh(t.containerSet.containers)
    ensures Unshared(additional)
    ensures Read(test) == old(Read(test)) && Read(publish) == old(Read(publish))
    ensures Show(additional, InlineContents(steps, |steps|, Read(test), Read(publish)))
  {
    additional := [];
    for i := 0 to |steps|
      invariant forall t <- additional :: fresh(t.containerSet) && fresh(t.containerSet.containers)
      invariant Unshared(additional)
      invariant Show(additional, InlineContents(steps, i, Read(test), Read(publish)))
    {
      var step := steps[i];
      if NeedsInline(step) {
        var template := Specialise(if step.DockerBuildTest? then test else publish, i, step.extras);
        additional := additional + [template];
      }
    }
  }

  /** Two compilations of the same steps: equal contents, nothing shared between them. */
  method CompileTwice(steps: seq<Step>, test: Template, publish: Template)
    returns (first: seq<Template>, second: seq<Template>)
    requires test.containerSet.containers.Length > 0 && publish.containerSet.containers.Length > 0
    ensures Unshared(first + second)
    ensures |first| == |second| && forall i :: 0 <= i < |first| ==> Read(first[i]) == Read(second[i])
  {
    first := GetAdditionalTemplates(steps, test, publish);
    second := GetAdditionalTemplates(steps, test, publish);
  }

  // ------------------------------------------------------------------ laws of the contents

  predicate NamedAsExpected(test: Contents, publish: Contents) {
    && test.name == BUILD_TEST && publish.name == BUILD_TEST_PUBLISH
    && test.containers != [] && publish.containers != []
  }

  /** The compiled templates carry the names that the tasks use. */
  lemma {:induction false} ContentsAreNamed(steps: seq<Step>, n: nat, test: Contents, publish: Contents)
    requires n <= |steps| && NamedAsExpected(test, publish)
    ensures |InlineContents(steps, n, test, publish)| == |InlineNames(steps, n)|
    ensures forall k | 0 <= k < |InlineNames(steps, n)| ::
      InlineContents(steps, n, test, publish)[k].name == InlineNames(steps, n)[k]
  {
    if n > 0 { ContentsAreNamed(steps, n - 1, test, publish); }
  }

  /** An artifact is numbered, read below "/artifacts", kept under a key of its pod, and optional only if it says so. */
  predicate IsOutputOf(o: Output, a: Artifact, j: nat) {
    && o.name == "artifact" + Decimal(j) && o.path == "/artifacts" + a.path
    && o.key == "workflow-artifacts/{{workflow.name}}/{{pod.name}}" + "/" + a.key
    && (o.optional <==> a.optional == Some(true))
  }

  // What a template of its own is for a step that adds `x` to the base.
  predicate IsSpecialised(c: Contents, base: Contents, x: Extras)
    requires base.containers != []
  {
    && |c.containers| == |base.containers|
    && c.containers[0].mounts == base.containers[0].mounts + x.mounts
    && c.containers[0].spec == base.containers[0].spec
    && c.containers[1..] == base.containers[1..] && c.mounts == base.mounts
    && c.volumes == base.volumes + x.volumes
    && |c.outputs| == |base.outputs| + |x.artifacts| && c.outputs[..|base.outputs|] == base.outputs
    && forall j | 0 <= j < |x.artifacts| :: IsOutputOf(c.outputs[|base.outputs| + j], x.artifacts[j], j)
  }

  lemma SpecialisedIs(base: Contents, i: nat, x: Extras)
    requires base.containers != []
    ensures IsSpecialised(Specialised(base, i, x), base, x)
  {
    forall j | 0 <= j < |x.artifacts| ensures IsOutputOf(OutputsOf(x.artifacts)[j], x.artifacts[j], j) {}
  }

  predicate ComesFrom(c: Contents, steps: seq<Step>, i: int, test: Contents, publish: Contents)
    requires test.containers != [] && publish.containers != []
  {
    && 0 <= i < |steps| && NeedsInline(steps[i])
    && c == Specialised(if steps[i].DockerBuildTest? then test else publish, i, steps[i].extras)
  }

  lemma {:induction false} ContentsComeFromSteps(
    steps: seq<Step>, n: nat, test: Contents, publish: Contents, k: nat) returns (i: nat)
    requires n <= |steps| && test.containers != [] && publish.containers != []
    requires k < |InlineContents(steps, n, test, publish)|
    ensures i < n && ComesFrom(InlineContents(steps, n, test, publish)[k], steps, i, test, publish)
  {
    if k < |InlineContents(steps, n - 1, test, publish)| {
      i := ContentsComeFromSteps(steps, n - 1, test, publish, k);
    } else {
      i := n - 1;
    }
  }

  /** What step `i` adds reaches only its own template: there, mounts only the first container. */
  lemma ExtrasStayWithTheirStep(steps: seq<Step>, n: nat, test: Contents, publish: Contents, k: nat) returns (i: nat)
    requires n <= |steps| && NamedAsExpected(test, publish) && k < |InlineContents(steps, n, test, publish)|
    ensures i < n && NeedsInline(steps[i])
    ensures var c := InlineContents(steps, n, test, publish)[k];
      && c.name == InlineName(BaseTemplate(steps[i]), i)
      && IsSpecialised(c, if steps[i].DockerBuildTest? then test else publish, steps[i].extras)
  {
    i := ContentsComeFromSteps(steps, n, test, publish, k);
    SpecialisedIs(if steps[i].DockerBuildTest? then test else publish, i, steps[i].extras);
  }
}
