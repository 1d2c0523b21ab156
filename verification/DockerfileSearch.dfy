/**
 Which image does a deploy step deploy? A breadth-first search through `dependsOn` for the one publish step
 among the transitive dependencies, on any graph, cyclic or with missing names.
 */
module DockerfileSearch {
  import opened Options
  import opened Steps

  datatype Outcome =
    | Found(path: string)
    | Multiple
    | NotFound
    | NilDereference     // a dependency that names no step

  // ------------------------------------------------------------------ what is asked for

  /** `path` walks dependencies from `start`, one edge at least; only its last name may be unknown. */
  predicate IsWalk(index: StepIndex, start: string, path: seq<string>) {
    && path != []
    && (if |path| == 1 then start in index && path[0] in index[start].dependsOn
        else
          var front := path[..|path| - 1];
          && IsWalk(index, start, front)
          && front[|front| - 1] in index
          && path[|path| - 1] in index[front[|front| - 1]].dependsOn)
  }

  ghost predicate Reaches(index: StepIndex, start: string, name: string) {
    exists path :: IsWalk(index, start, path) && path[|path| - 1] == name
  }

  ghost predicate ReachesPublish(index: StepIndex, start: string, name: string) {
    Reaches(index, start, name) && name in index && index[name].DockerBuildTestPublish?
  }

  ghost predicate NothingMissing(index: StepIndex, start: string) {
    forall n :: Reaches(index, start, n) ==> n in index
  }

  ghost predicate TwoPublish(index: StepIndex, start: string) {
    exists m, n :: m != n && ReachesPublish(index, start, m) && ReachesPublish(index, start, n)
  }

  ghost predicate OnePublish(index: StepIndex, start: string, path: string) {
    && !TwoPublish(index, start)
    && exists n :: ReachesPublish(index, start, n) && index[n].dockerfilePath == path
  }

  ghost predicate NoPublish(index: StepIndex, start: string) {
    forall n :: !ReachesPublish(index, start, n)
  }

  /** The answer a reader of the error messages expects. */
  ghost predicate Right(index: StepIndex, start: string, r: Outcome) {
    match r
    case Found(path) => OnePublish(index, start, path)
    case Multiple => TwoPublish(index, start)
    case NotFound => NoPublish(index, start)
    case NilDereference => !NothingMissing(index, start)
  }

  ghost predicate SomeEmptyPath(index: StepIndex, start: string) {
    exists n :: ReachesPublish(index, start, n) && index[n].dockerfilePath == ""
  }

  // ------------------------------------------------------------------ what is computed

  function Search(index: StepIndex, queue: seq<string>, visited: set<string>, found: string): Outcome
    decreases index.Keys - visited, |queue|
  {
    if queue == [] then if found == "" then NotFound else Found(found)
    else if queue[0] in visited then Search(index, queue[1..], visited, found)
    else if queue[0] !in index then NilDereference
    else
      var step := index[queue[0]];
      if step.DockerBuildTestPublish? && found != "" then Multiple
      else
        Search(index, queue[1..] + step.dependsOn, visited + {queue[0]},
               if step.DockerBuildTestPublish? then step.dockerfilePath else found)
  }

  function SearchFrom(index: StepIndex, start: string): Outcome
    requires start in index
  {
    Search(index, index[start].dependsOn, {}, "")
  }

  /** getDockerfilePathDependency. */
  method GetDockerfilePathDependency(initialStepName: string, stepsByName: StepIndex) returns (r: Outcome)
    requires initialStepName in stepsByName
    ensures r == SearchFrom(stepsByName, initialStepName)
    ensures r.Multiple? ==> TwoPublish(stepsByName, initialStepName)
    ensures !r.Multiple? ==>
      (Right(stepsByName, initialStepName, r) <==> !SomeEmptyPath(stepsByName, initialStepName) || r.NilDereference?)
  {
    var dependencies := stepsByName[initialStepName].dependsOn;
    var visited: set<string> := {};
    var dockerfilePath := "";
    SearchIsRight(stepsByName, initialStepName);
    while |dependencies| > 0
      invariant Search(stepsByName, dependencies, visited, dockerfilePath) == SearchFrom(stepsByName, initialStepName)
      decreases stepsByName.Keys - visited, |dependencies|
    {
      var dependency := dependencies[0];
      dependencies := dependencies[1..];
      if dependency !in visited {
        if dependency in stepsByName && stepsByName[dependency].DockerBuildTestPublish? {
          if dockerfilePath != "" {
            return Multiple;
          }
          dockerfilePath := stepsByName[dependency].dockerfilePath;
        }
        if dependency !in stepsByName {
          return NilDereference;
        }
        visited := visited + {dependency};
        dependencies := dependencies + stepsByName[dependency].dependsOn;
      }
    }
    if dockerfilePath == "" {
      return NotFound;
    }
    return Found(dockerfilePath);
  }

  // ------------------------------------------------------------------ the search explores what is reachable

  lemma WalkStep(index: StepIndex, start: string, name: string, dep: string)
    requires start in index
    requires name == start || (Reaches(index, start, name) && name in index)
    requires dep in index[name].dependsOn
    ensures Reaches(index, start, dep)
  {
    if name == start {
      assert IsWalk(index, start, [dep]);
    } else {
      var path :| IsWalk(index, start, path) && path[|path| - 1] == name;
      var longer := path + [dep];
      assert longer[..|longer| - 1] == path;
      assert IsWalk(index, start, longer);
    }
  }

  ghost predicate Explored(index: StepIndex, start: string, queue: seq<string>, visited: set<string>) {
    && start in index
    && (forall n <- queue :: Reaches(index, start, n))
    && (forall v <- visited :: v in index && Reaches(index, start, v))
    && (forall d <- index[start].dependsOn :: d in visited || d in queue)
    && (forall v, d | v in visited && d in index[v].dependsOn :: d in visited || d in queue)
  }

  // The non-empty path among the visited publish steps, if any.
  ghost predicate Noted(index: StepIndex, visited: set<string>, found: string) {
    && (found == "" ==>
          forall v <- visited :: v in index && index[v].DockerBuildTestPublish? ==> index[v].dockerfilePath == "")
    && (found != "" ==> exists v <- visited ::
          && v in index && index[v].DockerBuildTestPublish? && index[v].dockerfilePath == found
          && forall w <- visited ::
               w != v && w in index && index[w].DockerBuildTestPublish? ==> index[w].dockerfilePath == "")
  }

  lemma {:induction false} WalkStaysVisited(index: StepIndex, start: string, visited: set<string>, path: seq<string>)
    requires Explored(index, start, [], visited) && IsWalk(index, start, path)
    ensures path[|path| - 1] in visited
    decreases |path|
  {
    if |path| > 1 {
      WalkStaysVisited(index, start, visited, path[..|path| - 1]);
    }
  }

  lemma EverythingVisited(index: StepIndex, start: string, visited: set<string>)
    requires Explored(index, start, [], visited)
    ensures forall n :: Reaches(index, start, n) <==> n in visited
  {
    forall n | Reaches(index, start, n) ensures n in visited {
      var path :| IsWalk(index, start, path) && path[|path| - 1] == n;
      WalkStaysVisited(index, start, visited, path);
    }
  }

  lemma VisitExplores(index: StepIndex, start: string, queue: seq<string>, visited: set<string>)
    requires Explored(index, start, queue, visited) && queue != [] && queue[0] in index
    ensures Explored(index, start, queue[1..] + index[queue[0]].dependsOn, visited + {queue[0]})
  {
    var q, deps := queue[0], index[queue[0]].dependsOn;
    forall n | n in queue[1..] + deps ensures Reaches(index, start, n) {
      if n in deps { WalkStep(index, start, q, n); }
    }
    assert forall n :: n in queue ==> n == q || n in queue[1..];
  }

  lemma SkipExplores(index: StepIndex, start: string, queue: seq<string>, visited: set<string>)
    requires Explored(index, start, queue, visited) && queue != [] && queue[0] in visited
    ensures Explored(index, start, queue[1..], visited)
  {
    assert forall n :: n in queue ==> n == queue[0] || n in queue[1..];
  }

  /** What each outcome of the search says about the graph. */
  ghost predicate Explained(index: StepIndex, start: string, r: Outcome) {
    match r
    case Multiple => TwoPublish(index, start)
    case NilDereference => !NothingMissing(index, start)
    case NotFound =>
      NothingMissing(index, start) && forall n | ReachesPublish(index, start, n) :: index[n].dockerfilePath == ""
    case Found(path) =>
      && NothingMissing(index, start) && path != ""
      && exists v :: ReachesPublish(index, start, v) && index[v].dockerfilePath == path
           && forall w | ReachesPublish(index, start, w) && w != v :: index[w].dockerfilePath == ""
  }

  lemma SearchEnds(index: StepIndex, start: string, visited: set<string>, found: string)
    requires Explored(index, start, [], visited) && Noted(index, visited, found)
    ensures Explained(index, start, Search(index, [], visited, found))
  {
    EverythingVisited(index, start, visited);
    if found != "" {
      var v :| v in visited && index[v].DockerBuildTestPublish? && index[v].dockerfilePath == found
        && forall w <- visited ::
             w != v && w in index && index[w].DockerBuildTestPublish? ==> index[w].dockerfilePath == "";
      assert ReachesPublish(index, start, v);
    }
  }

  lemma {:induction false} SearchIsExplained(
    index: StepIndex, start: string, queue: seq<string>, visited: set<string>, found: string)
    requires Explored(index, start, queue, visited) && Noted(index, visited, found)
    ensures Explained(index, start, Search(index, queue, visited, found))
    decreases index.Keys - visited, |queue|
  {
    if queue == [] {
      SearchEnds(index, start, visited, found);
    } else if queue[0] in visited {
      SkipExplores(index, start, queue, visited);
      SearchIsExplained(index, start, queue[1..], visited, found);
    } else if queue[0] !in index {
      assert Reaches(index, start, queue[0]);
    } else {
      var q, step := queue[0], index[queue[0]];
      assert Reaches(index, start, q);
      if step.DockerBuildTestPublish? && found != "" {
        var v :| v in visited && v in index && index[v].DockerBuildTestPublish? && index[v].dockerfilePath == found;
        assert ReachesPublish(index, start, v) && ReachesPublish(index, start, q);
      } else {
        VisitExplores(index, start, queue, visited);
        var found' := if step.DockerBuildTestPublish? then step.dockerfilePath else found;
        NoteVisit(index, visited, found, q);
        SearchIsExplained(index, start, queue[1..] + step.dependsOn, visited + {q}, found');
      }
    }
  }

  lemma NoteVisit(index: StepIndex, visited: set<string>, found: string, q: string)
    requires Noted(index, visited, found) && q in index && q !in visited
    requires index[q].DockerBuildTestPublish? ==> found == ""
    requires forall v <- visited :: v in index
    ensures Noted(index, visited + {q}, if index[q].DockerBuildTestPublish? then index[q].dockerfilePath else found)
  {
    if !index[q].DockerBuildTestPublish? && found != "" {
      var v :| v in visited && v in index && index[v].DockerBuildTestPublish? && index[v].dockerfilePath == found
          && forall w <- visited ::
               w != v && w in index && index[w].DockerBuildTestPublish? ==> index[w].dockerfilePath == "";
      assert v in visited + {q};
    } else if index[q].DockerBuildTestPublish? && index[q].dockerfilePath != "" {
      assert q in visited + {q};
    }
  }

  // ------------------------------------------------------------------ main results

  /**
   "Multiple" is always right. Any other answer that does not crash is right exactly when no reachable publish
   step has an empty Dockerfile path, the value the code also uses for "not found yet".
   */
  lemma SearchIsRight(index: StepIndex, start: string)
    requires start in index
    ensures var r := SearchFrom(index, start);
      && (r.Multiple? ==> Right(index, start, r))
      && (r.NilDereference? ==> Right(index, start, r))
      && (r.Found? || r.NotFound? ==> (Right(index, start, r) <==> !SomeEmptyPath(index, start)))
  {
    forall d | d in index[start].dependsOn ensures Reaches(index, start, d) { WalkStep(index, start, start, d); }
    SearchIsExplained(index, start, index[start].dependsOn, {}, "");
  }

  /** With known names and non-empty paths, each outcome occurs exactly when it should. */
  lemma SearchDecides(index: StepIndex, start: string, path: string)
    requires start in index && NothingMissing(index, start) && !SomeEmptyPath(index, start)
    ensures SearchFrom(index, start) == Found(path) <==> OnePublish(index, start, path)
    ensures SearchFrom(index, start) == Multiple <==> TwoPublish(index, start)
    ensures SearchFrom(index, start) == NotFound <==> NoPublish(index, start)
  {
    SearchIsRight(index, start);
  }

  /**
   A crash means that a missing name is reachable. With at most one reachable publish step, or with none missing, it
   is the other way round as well: only finding a second publish step first can hide a missing name.
   */
  lemma MissingNamesCrash(index: StepIndex, start: string)
    requires start in index
    ensures SearchFrom(index, start).NilDereference? ==> !NothingMissing(index, start)
    ensures !TwoPublish(index, start) ==> (SearchFrom(index, start).NilDereference? <==> !NothingMissing(index, start))
    ensures !NothingMissing(index, start) ==>
      SearchFrom(index, start).NilDereference? || SearchFrom(index, start).Multiple?
  {
    forall d | d in index[start].dependsOn ensures Reaches(index, start, d) { WalkStep(index, start, start, d); }
    SearchIsExplained(index, start, index[start].dependsOn, {}, "");
  }

  // ------------------------------------------------------------------ order does not matter

  /** The same steps, each with its dependencies in any order and multiplicity. */
  ghost predicate SameUpToOrder(a: StepIndex, b: StepIndex) {
    && a.Keys == b.Keys
    && forall n <- a ::
         && (a[n].DockerBuildTestPublish? <==> b[n].DockerBuildTestPublish?)
         && (a[n].DockerBuildTestPublish? ==> a[n].dockerfilePath == b[n].dockerfilePath)
         && forall d :: d in a[n].dependsOn <==> d in b[n].dependsOn
  }

  lemma {:induction false} SameWalks(a: StepIndex, b: StepIndex, start: string, path: seq<string>)
    requires SameUpToOrder(a, b) && IsWalk(a, start, path)
    ensures IsWalk(b, start, path)
    decreases |path|
  {
    if |path| > 1 { SameWalks(a, b, start, path[..|path| - 1]); }
  }

  lemma SameReach(a: StepIndex, b: StepIndex, start: string)
    requires SameUpToOrder(a, b)
    ensures forall n :: Reaches(a, start, n) <==> Reaches(b, start, n)
    ensures forall n :: ReachesPublish(a, start, n) <==> ReachesPublish(b, start, n)
  {
    forall n ensures Reaches(a, start, n) <==> Reaches(b, start, n) {
      if Reaches(a, start, n) {
        var path :| IsWalk(a, start, path) && path[|path| - 1] == n;
        SameWalks(a, b, start, path);
      }
      if Reaches(b, start, n) {
        var path :| IsWalk(b, start, path) && path[|path| - 1] == n;
        SameWalks(b, a, start, path);
      }
    }
  }

  lemma OrderDoesNotMatter(a: StepIndex, b: StepIndex, start: string)
    requires SameUpToOrder(a, b) && start in a
    requires NothingMissing(a, start) && !SomeEmptyPath(a, start)
    ensures SearchFrom(a, start) == SearchFrom(b, start)
  {
    SameReach(a, b, start);
    SearchIsRight(a, start);
    SearchIsRight(b, start);
    assert NothingMissing(b, start) && !SomeEmptyPath(b, start);
  }

  function TwoImages(dependsOn: seq<string>): StepIndex {
    map["deploy" := ArgoCD("deploy", dependsOn, "", "", "", None),
        "blank" := DockerBuildTestPublish("blank", [], "", "", Extras([], [], [])),
        "image" := DockerBuildTestPublish("image", [], "Dockerfile", "", Extras([], [], []))]
  }

  /** With an empty path the answer depends on the order in which dependencies are written. */
  lemma OrderMattersWithAnEmptyPath()
    ensures SameUpToOrder(TwoImages(["blank", "image"]), TwoImages(["image", "blank"]))
    ensures SearchFrom(TwoImages(["blank", "image"]), "deploy") == Found("Dockerfile")
    ensures SearchFrom(TwoImages(["image", "blank"]), "deploy") == Multiple
  {
    var a, b := TwoImages(["blank", "image"]), TwoImages(["image", "blank"]);
    assert ["blank", "image"][1..] + [] == ["image"] && ["image", "blank"][1..] + [] == ["blank"];
    assert ["image"][1..] + [] == [];
    assert {} + {"blank"} == {"blank"} && {} + {"image"} == {"image"};
    assert Search(a, ["image"], {"blank"}, "")
        == Search(a, [], {"blank"} + {"image"}, "Dockerfile") == Found("Dockerfile");
    assert Search(a, ["blank", "image"], {}, "") == Search(a, ["image"], {"blank"}, "");
    assert Search(b, ["blank"], {"image"}, "Dockerfile") == Multiple;
    assert Search(b, ["image", "blank"], {}, "") == Search(b, ["blank"], {"image"}, "Dockerfile");
  }
}
