/** The steps of a Flow after parsing and defaulting, as the workflow compiler reads them. */
module Steps {
  import opened Options

  datatype Artifact = Artifact(path: string, key: string, optional: Option<bool>)

  // What a step adds to its build container.
  datatype Extras = Extras(volumes: seq<string>, mounts: seq<string>, artifacts: seq<Artifact>)

  datatype Step =
    | DockerBuildTest(name: string, dependsOn: seq<string>, dockerfilePath: string, contextDir: string, extras: Extras)
    | DockerBuildTestPublish(
        name: string, dependsOn: seq<string>, dockerfilePath: string, contextDir: string, extras: Extras)
    | ArgoCD(
        name: string, dependsOn: seq<string>, repoUrl: string, repoPath: string, baseRef: string,
        pauseReason: Option<string>)
    | GitHubCreatePr(name: string, dependsOn: seq<string>, repoUrl: string, baseRef: string, filePaths: seq<string>)

  type StepIndex = map<string, Step>

  /** stepsByName: of steps sharing a name the last one wins. */
  function Index(steps: seq<Step>): StepIndex {
    if steps == [] then map[]
    else Index(steps[..|steps| - 1])[steps[|steps| - 1].name := steps[|steps| - 1]]
  }

  predicate DistinctNames(steps: seq<Step>) {
    forall i, j :: 0 <= i < j < |steps| ==> steps[i].name != steps[j].name
  }

  lemma {:induction false} IndexLookup(steps: seq<Step>)
    ensures forall n <- Index(steps) :: Index(steps)[n] in steps && Index(steps)[n].name == n
    ensures forall s <- steps :: s.name in Index(steps)
    ensures DistinctNames(steps) ==> forall s <- steps :: Index(steps)[s.name] == s
  {
    if steps != [] {
      var front, last := steps[..|steps| - 1], steps[|steps| - 1];
      IndexLookup(front);
      assert steps == front + [last];
    }
  }
}
