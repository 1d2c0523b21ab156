/** The `depends` and `when` expressions of a workflow task: printing, and what the workflow engine reads. */
module Expressions {
  import opened Options
  import opened Text
  import opened Steps

  const AND := " && "
  const SUCCEEDED := ".Succeeded"
  const WHEN_OPEN := "{{tasks."
  const STATUS_OUTPUT := "jettison-deploy-step-status"
  const WHEN_CLOSE := ".outputs.parameters." + STATUS_OUTPUT + "}} != Skipped"

  // ------------------------------------------------------------------ printing

  function DependsTerm(name: string): string { name + SUCCEEDED }

  function WhenTerm(name: string): string { WHEN_OPEN + name + WHEN_CLOSE }

  function Terms(names: seq<string>, term: string -> string): seq<string> {
    seq(|names|, i requires 0 <= i < |names| => term(names[i]))
  }

  function PrintDepends(dependsOn: seq<string>): string { Join(Terms(dependsOn, DependsTerm), AND) }

  function PrintWhen(gates: seq<string>): string { Join(Terms(gates, WhenTerm), AND) }

  /** Steps that export the status a `when` asks for. */
  predicate ExportsStatus(index: StepIndex, name: string) {
    name in index && !index[name].GitHubCreatePr?
  }

  /** The direct dependencies a deploy step is gated on. */
  function Gates(dependsOn: seq<string>, index: StepIndex): seq<string> {
    if dependsOn == [] then []
    else
      var last := dependsOn[|dependsOn| - 1];
      Gates(dependsOn[..|dependsOn| - 1], index) + if ExportsStatus(index, last) then [last] else []
  }

  method GetDepends(dependsOn: seq<string>) returns (r: string)
    ensures r == PrintDepends(dependsOn)
  {
    var n := |dependsOn|;
    if n == 0 {
      return "";
    }
    var succeededDependsOn: seq<string> := [];
    for i := 0 to n
      invariant succeededDependsOn == Terms(dependsOn[..i], DependsTerm)
    {
      succeededDependsOn := succeededDependsOn + [dependsOn[i] + ".Succeeded"];
      assert DependsTerm(dependsOn[i]) == dependsOn[i] + ".Succeeded";
    }
    assert dependsOn[..n] == dependsOn;
    return Join(succeededDependsOn, " && ");
  }

  method GetWhen(dependsOn: seq<string>, stepsByName: StepIndex) returns (r: string)
    requires forall n <- stepsByName :: stepsByName[n].name == n
    ensures r == PrintWhen(Gates(dependsOn, stepsByName))
  {
    var whenDeps: seq<string> := [];
    for i := 0 to |dependsOn|
      invariant whenDeps == Terms(Gates(dependsOn[..i], stepsByName), WhenTerm)
    {
      assert dependsOn[..i + 1][..i] == dependsOn[..i];
      var dependency := dependsOn[i];
      if dependency in stepsByName {
        match stepsByName[dependency] {
          case DockerBuildTestPublish(name, _, _, _, _) => whenDeps := whenDeps + [WhenTerm(name)];
          case DockerBuildTest(name, _, _, _, _) => whenDeps := whenDeps + [WhenTerm(name)];
          case ArgoCD(name, _, _, _, _, _) => whenDeps := whenDeps + [WhenTerm(name)];
          case GitHubCreatePr(_, _, _, _, _) =>
        }
      }
    }
    assert dependsOn[..|dependsOn|] == dependsOn;
    return Join(whenDeps, " && ");
  }

  // ------------------------------------------------------------------ reading

  predicate IsNameChar(c: char) {
    'a' <= c <= 'z' || 'A' <= c <= 'Z' || '0' <= c <= '9' || c == '-' || c == '_'
  }

  /** The task names the workflow engine accepts in expressions. */
  predicate IsTaskName(s: string) { s != "" && forall c <- s :: IsNameChar(c) }

  function ReadDependsTerm(term: string): Option<string> {
    var name := TrimSuffix(term, SUCCEEDED);
    if EndsWith(term, SUCCEEDED) && IsTaskName(name) then Some(name) else None
  }

  function ReadWhenTerm(term: string): Option<string> {
    if StartsWith(term, WHEN_OPEN) && EndsWith(term[|WHEN_OPEN|..], WHEN_CLOSE) then
      var name := TrimSuffix(term[|WHEN_OPEN|..], WHEN_CLOSE);
      if IsTaskName(name) then Some(name) else None
    else None
  }

  function ReadTerms(terms: seq<string>, read: string -> Option<string>): Option<seq<string>> {
    if terms == [] then Some([])
    else
      var first, rest := read(terms[0]), ReadTerms(terms[1..], read);
      if first.Some? && rest.Some? then Some([first.value] + rest.value) else None
  }

  /** The names of a conjunction; None is a syntax error. */
  function ReadDepends(expr: string): Option<seq<string>> {
    if expr == "" then Some([]) else ReadTerms(Split(expr, AND), ReadDependsTerm)
  }

  function ReadWhen(expr: string): Option<seq<string>> {
    if expr == "" then Some([]) else ReadTerms(Split(expr, AND), ReadWhenTerm)
  }

  // ------------------------------------------------------------------ reading undoes printing

  lemma Unwrap(before: string, name: string, after: string)
    ensures StartsWith(before + name + after, before)
    ensures (before + name + after)[|before|..] == name + after
    ensures EndsWith(name + after, after) && TrimSuffix(name + after, after) == name
  {
    assert (name + after)[..|name|] == name && (name + after)[|name|..] == after;
  }

  lemma NoAmpersands(name: string)
    requires IsTaskName(name)
    ensures '&' !in name && '&' !in SUCCEEDED && '&' !in WHEN_OPEN && '&' !in WHEN_CLOSE
  {
    assert forall c <- name :: IsNameChar(c) && c != '&';
    assert '&' !in ".outputs.parameters." && '&' !in STATUS_OUTPUT && '&' !in "}} != Skipped";
  }

  lemma TermsReadBack(name: string)
    requires IsTaskName(name)
    ensures ReadDependsTerm(DependsTerm(name)) == Some(name) && '&' !in DependsTerm(name)
    ensures ReadWhenTerm(WhenTerm(name)) == Some(name) && '&' !in WhenTerm(name)
  {
    Unwrap("", name, SUCCEEDED);
    Unwrap(WHEN_OPEN, name, WHEN_CLOSE);
    NoAmpersands(name);
  }

  lemma {:induction false} AllReadBack(names: seq<string>, term: string -> string, read: string -> Option<string>)
    requires forall n <- names :: read(term(n)) == Some(n)
    ensures ReadTerms(Terms(names, term), read) == Some(names)
  {
    if names != [] {
      assert Terms(names, term)[1..] == Terms(names[1..], term);
      AllReadBack(names[1..], term, read);
      assert names == [names[0]] + names[1..];
    }
  }

  lemma {:induction false} ReadNamesAreNames(terms: seq<string>, read: string -> Option<string>)
    requires forall t :: read(t).Some? ==> IsTaskName(read(t).value)
    ensures ReadTerms(terms, read).Some? ==> forall n <- ReadTerms(terms, read).value :: IsTaskName(n)
  {
    if terms != [] { ReadNamesAreNames(terms[1..], read); }
  }

  lemma JoinIsNotEmpty(parts: seq<string>, sep: string)
    requires parts != [] && parts[0] != ""
    ensures Join(parts, sep) != ""
  {
  }

  lemma DependsReadsBack(dependsOn: seq<string>)
    requires forall d <- dependsOn :: IsTaskName(d)
    ensures ReadDepends(PrintDepends(dependsOn)) == Some(dependsOn)
  {
    var terms := Terms(dependsOn, DependsTerm);
    forall d | d in dependsOn ensures ReadDependsTerm(DependsTerm(d)) == Some(d) { TermsReadBack(d); }
    forall t | t in terms ensures '&' !in t {
      var i :| 0 <= i < |terms| && terms[i] == t;
      TermsReadBack(dependsOn[i]);
    }
    if dependsOn != [] {
      JoinIsNotEmpty(terms, AND);
      SplitUndoesJoin(terms, AND);
      AllReadBack(dependsOn, DependsTerm, ReadDependsTerm);
    }
  }

  /** The engine reads back exactly the dependencies that were printed, if and only if all are task names. */
  lemma DependsRoundTrip(dependsOn: seq<string>)
    ensures ReadDepends(PrintDepends(dependsOn)) == Some(dependsOn) <==> forall d <- dependsOn :: IsTaskName(d)
  {
    if forall d <- dependsOn :: IsTaskName(d) {
      DependsReadsBack(dependsOn);
    } else {
      ReadNamesAreNames(Split(PrintDepends(dependsOn), AND), ReadDependsTerm);
    }
  }

  lemma WhenRoundTrip(gates: seq<string>)
    ensures ReadWhen(PrintWhen(gates)) == Some(gates) <==> forall d <- gates :: IsTaskName(d)
  {
    var terms := Terms(gates, WhenTerm);
    if forall d <- gates :: IsTaskName(d) {
      forall d | d in gates ensures ReadWhenTerm(WhenTerm(d)) == Some(d) { TermsReadBack(d); }
      forall t | t in terms ensures '&' !in t {
        var i :| 0 <= i < |terms| && terms[i] == t;
        TermsReadBack(gates[i]);
      }
      if gates != [] {
        JoinIsNotEmpty(terms, AND);
        SplitUndoesJoin(terms, AND);
        AllReadBack(gates, WhenTerm, ReadWhenTerm);
      }
    } else {
      ReadNamesAreNames(Split(PrintWhen(gates), AND), ReadWhenTerm);
    }
  }

  lemma {:induction false} GatesAre(dependsOn: seq<string>, index: StepIndex)
    ensures forall d :: d in Gates(dependsOn, index) <==> d in dependsOn && ExportsStatus(index, d)
  {
    if dependsOn != [] {
      GatesAre(dependsOn[..|dependsOn| - 1], index);
      assert dependsOn == dependsOn[..|dependsOn| - 1] + [dependsOn[|dependsOn| - 1]];
    }
  }
}
