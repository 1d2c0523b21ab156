/** Which steps compile, and which failure is reported when some do not. */
module CompileOutcomes {
  import opened Steps
  import opened DockerfileSearch
  import opened WorkflowCompiler
  import GitUrl

  // Building always compiles; deploying needs an image and a repository.
  predicate Compilable(s: Step, index: StepIndex)
    requires s.name in index
  {
    Builds(s) || (SearchFrom(index, s.name).Found? && GitUrl.GetRepoOrgName(s.repoUrl).Repo?)
  }

  /** What is reported of a step: first of all that no single image can be found for it. */
  predicate Reports(e: Error, s: Step, index: StepIndex)
    requires s.name in index
  {
    match e
    case NoDockerfile(name, outcome) =>
      Deploys(s) && name == s.name && outcome == SearchFrom(index, name) && !outcome.Found?
    case BadRepoUrl(name, parsed) =>
      && Deploys(s) && name == s.name && SearchFrom(index, name).Found?
      && parsed == GitUrl.GetRepoOrgName(s.repoUrl) && !parsed.Repo?
  }

  lemma StepOutcome(s: Step, i: nat, index: StepIndex)
    requires s.name in index
    ensures var r := CompileStep(s, i, index);
      (r.Compiled? <==> Compilable(s, index)) && (r.Rejected? ==> Reports(r.error, s, index))
  {
  }

  predicate Knows(index: StepIndex, steps: seq<Step>) { forall s <- steps :: s.name in index }

  // The first `n` steps.
  ghost predicate AllCompilable(steps: seq<Step>, n: nat, index: StepIndex)
    requires n <= |steps| && Knows(index, steps)
  {
    forall i | 0 <= i < n :: Compilable(steps[i], index)
  }

  ghost predicate FailsAt(steps: seq<Step>, i: nat, e: Error, index: StepIndex)
    requires Knows(index, steps)
  {
    i < |steps| && AllCompilable(steps, i, index) && Reports(e, steps[i], index)
  }

  // What compiling the first `n` steps may come to.
  ghost predicate OutcomeIs(steps: seq<Step>, n: nat, r: Compiled<seq<Task>>, index: StepIndex)
    requires n <= |steps| && Knows(index, steps)
  {
    && (r.Compiled? <==> AllCompilable(steps, n, index))
    && (r.Rejected? ==> exists i | 0 <= i < n :: FailsAt(steps, i, r.error, index))
  }

  lemma NextFails(steps: seq<Step>, n: nat, e: Error, index: StepIndex)
    requires n < |steps| && Knows(index, steps) && AllCompilable(steps, n, index)
    requires !Compilable(steps[n], index) && Reports(e, steps[n], index)
    ensures OutcomeIs(steps, n + 1, Rejected(e), index)
  {
    assert FailsAt(steps, n, e, index);
  }

  lemma NextCompiles(steps: seq<Step>, n: nat, tasks: seq<Task>, index: StepIndex)
    requires n < |steps| && Knows(index, steps) && AllCompilable(steps, n, index) && Compilable(steps[n], index)
    ensures OutcomeIs(steps, n + 1, Compiled(tasks), index)
  {
  }

  lemma NextOutcome(
    steps: seq<Step>, n: nat, front: Compiled<seq<Task>>, task: Compiled<Task>, r: Compiled<seq<Task>>,
    index: StepIndex)
    requires n < |steps| && Knows(index, steps) && OutcomeIs(steps, n, front, index)
    requires task.Compiled? <==> Compilable(steps[n], index)
    requires task.Rejected? ==> Reports(task.error, steps[n], index)
    requires r == if front.Rejected? then front
                  else if task.Rejected? then Rejected(task.error) else Compiled(front.value + [task.value])
    ensures OutcomeIs(steps, n + 1, r, index)
  {
    if front.Compiled? {
      if task.Rejected? {
        NextFails(steps, n, task.error, index);
      } else {
        NextCompiles(steps, n, front.value + [task.value], index);
      }
    }
  }

  lemma NextTask(steps: seq<Step>, n: nat) returns (task: Compiled<Task>)
    requires n < |steps| && Knows(Index(steps), steps)
    ensures task.Compiled? <==> Compilable(steps[n], Index(steps))
    ensures task.Rejected? ==> Reports(task.error, steps[n], Index(steps))
    ensures var front := CompileUpTo(steps, n);
      CompileUpTo(steps, n + 1) ==
        if front.Rejected? then front
        else if task.Rejected? then Rejected(task.error) else Compiled(front.value + [task.value])
  {
    task := CompileStep(steps[n], n, Index(steps));
    StepOutcome(steps[n], n, Index(steps));
  }

  lemma {:induction false} OutcomeUpTo(steps: seq<Step>, n: nat)
    requires n <= |steps|
    ensures Knows(Index(steps), steps) && OutcomeIs(steps, n, CompileUpTo(steps, n), Index(steps))
  {
    IndexLookup(steps);
    if n > 0 {
      OutcomeUpTo(steps, n - 1);
      var task := NextTask(steps, n - 1);
      NextOutcome(steps, n - 1, CompileUpTo(steps, n - 1), task, CompileUpTo(steps, n), Index(steps));
    }
  }

  /** The first step that cannot be compiled is the one that is reported. */
  lemma FirstFailureIsReported(steps: seq<Step>) returns (i: nat)
    ensures Knows(Index(steps), steps)
    ensures Compile(steps).Compiled? ==> i == |steps|
    ensures Compile(steps).Rejected? ==> i < |steps| && Reports(Compile(steps).error, steps[i], Index(steps))
    ensures i <= |steps| && AllCompilable(steps, i, Index(steps))
  {
    OutcomeUpTo(steps, |steps|);
    if Compile(steps).Rejected? {
      i :| 0 <= i < |steps| && FailsAt(steps, i, Compile(steps).error, Index(steps));
    } else {
      i := |steps|;
    }
  }

  /** A deploy step can be served: one publish step among its dependencies, and a repository url. */
  ghost predicate Served(s: Step, index: StepIndex)
    requires Deploys(s)
  {
    && (exists path :: OnePublish(index, s.name, path))
    && (exists org, name :: GitUrl.GetRepoOrgName(s.repoUrl) == GitUrl.Repo(org, name))
  }

  lemma CompilableIsServed(s: Step, index: StepIndex)
    requires s.name in index && Deploys(s) && NothingMissing(index, s.name) && !SomeEmptyPath(index, s.name)
    ensures Compilable(s, index) <==> Served(s, index)
  {
    if Compilable(s, index) {
      SearchDecides(index, s.name, SearchFrom(index, s.name).path);
      var parsed := GitUrl.GetRepoOrgName(s.repoUrl);
      assert parsed == GitUrl.Repo(parsed.org, parsed.name);
    }
    if path :| OnePublish(index, s.name, path) { SearchDecides(index, s.name, path); }
  }

  /** With known dependencies and non-empty paths, a Flow compiles exactly when all its deploy steps can be served. */
  lemma CompilesExactly(steps: seq<Step>)
    requires forall s <- steps | Deploys(s) ::
      NothingMissing(Index(steps), s.name) && !SomeEmptyPath(Index(steps), s.name)
    ensures Compile(steps).Compiled? <==> forall s <- steps | Deploys(s) :: Served(s, Index(steps))
  {
    OutcomeUpTo(steps, |steps|);
    if forall s <- steps | Deploys(s) :: Served(s, Index(steps)) {
      forall i | 0 <= i < |steps| ensures Compilable(steps[i], Index(steps)) {
        assert steps[i] in steps;
        if Deploys(steps[i]) { CompilableIsServed(steps[i], Index(steps)); }
      }
    }
    if Compile(steps).Compiled? {
      forall s | s in steps && Deploys(s) ensures Served(s, Index(steps)) {
        var i :| 0 <= i < |steps| && steps[i] == s;
        assert Compilable(steps[i], Index(steps));
        CompilableIsServed(s, Index(steps));
      }
    }
  }
}
