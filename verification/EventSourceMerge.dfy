/** Adding a repository to the EventSource that all Flows share. */
module EventSourceMerge {
  import opened Options

  const SECTION := "ghwebhook"

  datatype OwnedRepos = OwnedRepos(owner: string, names: seq<string>)

  // `settings` stands for the webhook settings, which merging never looks at.
  datatype Section = Section(repositories: seq<OwnedRepos>, settings: string)

  // `github` is None when the fetched object has no such map; `other` is everything else in the object.
  datatype Source = Source(github: Option<map<string, Section>>, other: string)

  datatype Merged = Unneeded | Needed | NilMap

  const NO_SECTION := Section([], "")

  const DEFAULT_SETTINGS := "webhook"
  const DEFAULT_OTHER := "service"

  /** BuildEventSource. */
  function BuildEventSource(org: string, name: string): Source {
    Source(Some(map[SECTION := Section([OwnedRepos(org, [name])], DEFAULT_SETTINGS)]), DEFAULT_OTHER)
  }

  function SectionOf(s: Source): Section {
    if s.github.Some? && SECTION in s.github.value then s.github.value[SECTION] else NO_SECTION
  }

  /** The position of the first entry for `org`, or the length. */
  function FirstOf(repos: seq<OwnedRepos>, org: string): (i: nat)
    ensures i <= |repos| && (i < |repos| ==> repos[i].owner == org)
    ensures forall j :: 0 <= j < i ==> repos[j].owner != org
  {
    if repos == [] || repos[0].owner == org then 0
    else 1 + FirstOf(repos[1..], org)
  }

  function MergeRepos(repos: seq<OwnedRepos>, org: string, name: string): seq<OwnedRepos> {
    var i := FirstOf(repos, org);
    if i == |repos| then repos + [OwnedRepos(org, [name])]
    else if name in repos[i].names then repos
    else repos[i := OwnedRepos(org, repos[i].names + [name])]
  }

  predicate NeedsMerge(repos: seq<OwnedRepos>, org: string, name: string) {
    var i := FirstOf(repos, org);
    i < |repos| ==> name !in repos[i].names
  }

  /** The source after a merge that does not crash. */
  function Merge(s: Source, org: string, name: string): Source
    requires s.github.Some?
  {
    var section := SectionOf(s);
    if !NeedsMerge(section.repositories, org, name) then s
    else
      var merged := section.(repositories := MergeRepos(section.repositories, org, name));
      s.(github := Some(s.github.value[SECTION := merged]))
  }

  function MergeOutcome(s: Source, org: string, name: string): Merged {
    if s.github.None? then NilMap else if NeedsMerge(SectionOf(s).repositories, org, name) then Needed else Unneeded
  }

  // ------------------------------------------------------------------ in place

  class EventSource {
    var github: Option<map<string, Section>>
    var other: string

    constructor (s: Source)
      ensures View() == s
    {
      github := s.github;
      other := s.other;
    }

    function View(): Source
      reads this
    {
      Source(github, other)
    }
  }

  /** mergeOwnedRepos. It crashes exactly when the fetched object has no map to write the section to. */
  method MergeOwnedRepos(eventSource: EventSource, repoOrg: string, repoName: string) returns (r: Merged)
    modifies eventSource
    ensures r == MergeOutcome(old(eventSource.View()), repoOrg, repoName)
    ensures eventSource.View() ==
      if r.NilMap? then old(eventSource.View()) else Merge(old(eventSource.View()), repoOrg, repoName)
  {
    var githubEventSources := if eventSource.github.Some? then eventSource.github.value else map[];
    var githubEventSource := if SECTION in githubEventSources then githubEventSources[SECTION] else NO_SECTION;
    var ownedRepos := githubEventSource.repositories;
    assert githubEventSource == SectionOf(eventSource.View());
    for i := 0 to |ownedRepos|
      invariant forall j :: 0 <= j < i ==> ownedRepos[j].owner != repoOrg
      invariant eventSource.View() == old(eventSource.View())
    {
      if ownedRepos[i].owner == repoOrg {
        assert FirstOf(ownedRepos, repoOrg) == i;
        if repoName in ownedRepos[i].names {
          return Unneeded;
        }
        ownedRepos := ownedRepos[i := OwnedRepos(repoOrg, ownedRepos[i].names + [repoName])];
        githubEventSource := githubEventSource.(repositories := ownedRepos);
        eventSource.github := Some(githubEventSources[SECTION := githubEventSource]);
        return Needed;
      }
    }
    assert FirstOf(ownedRepos, repoOrg) == |ownedRepos|;
    ownedRepos := ownedRepos + [OwnedRepos(repoOrg, [repoName])];
    githubEventSource := githubEventSource.(repositories := ownedRepos);
    if eventSource.github.None? {
      return NilMap;
    }
    eventSource.github := Some(githubEventSources[SECTION := githubEventSource]);
    return Needed;
  }

  // ------------------------------------------------------------------ what merging means

  predicate Owns(repos: seq<OwnedRepos>, org: string, name: string) {
    exists i :: 0 <= i < |repos| && repos[i].owner == org && name in repos[i].names
  }

  predicate UniqueOwners(repos: seq<OwnedRepos>) {
    forall i, j :: 0 <= i < j < |repos| ==> repos[i].owner != repos[j].owner
  }

  /** No later entry of the owner has a name that its first entry lacks. */
  predicate FirstHasAll(repos: seq<OwnedRepos>, org: string) {
    forall j, name | 0 <= j < |repos| && repos[j].owner == org && name in repos[j].names ::
      name in repos[FirstOf(repos, org)].names
  }

  /** A later entry of the owner has the name, and the first entry, where the merge looks, does not. */
  predicate IsHidden(repos: seq<OwnedRepos>, org: string, name: string) {
    var i := FirstOf(repos, org);
    i < |repos| && name !in repos[i].names
    && exists j :: i < j < |repos| && repos[j].owner == org && name in repos[j].names
  }

  /** Merging adds the asked-for pair and no other, and forgets none. */
  lemma MergeAddsOnePair(repos: seq<OwnedRepos>, org: string, name: string, o: string, n: string)
    ensures Owns(MergeRepos(repos, org, name), o, n) <==> Owns(repos, o, n) || (o == org && n == name)
  {
    var i, merged := FirstOf(repos, org), MergeRepos(repos, org, name);
    if Owns(repos, o, n) {
      var k :| 0 <= k < |repos| && repos[k].owner == o && n in repos[k].names;
      assert merged[k].owner == o && n in merged[k].names;
    }
    if o == org && n == name { assert merged[i].owner == o && n in merged[i].names; }
    if Owns(merged, o, n) {
      var k :| 0 <= k < |merged| && merged[k].owner == o && n in merged[k].names;
      if k < |repos| { assert repos[k].owner == o; }
    }
  }

  lemma FoundIsListed(repos: seq<OwnedRepos>, org: string, name: string)
    requires !NeedsMerge(repos, org, name)
    ensures Owns(repos, org, name)
  {
    var i := FirstOf(repos, org);
    assert repos[i].owner == org && name in repos[i].names;
  }

  /** For one pair: an update is asked for exactly when it is missing, unless a later entry of the owner hides it. */
  lemma NeededUnlessHidden(repos: seq<OwnedRepos>, org: string, name: string)
    ensures (NeedsMerge(repos, org, name) <==> !Owns(repos, org, name)) <==> !IsHidden(repos, org, name)
  {
    var i := FirstOf(repos, org);
    if i < |repos| && name in repos[i].names { assert Owns(repos, org, name); }
    if IsHidden(repos, org, name) {
      var j :| i < j < |repos| && repos[j].owner == org && name in repos[j].names;
      assert Owns(repos, org, name);
    }
    if Owns(repos, org, name) && NeedsMerge(repos, org, name) {
      var j :| 0 <= j < |repos| && repos[j].owner == org && name in repos[j].names;
      assert j != i;
    }
  }

  /**
   For one owner: updates are asked for exactly when a pair is missing, if and only if the owner's first entry has all
   the names that its other entries have. With one entry for each owner that is so.
   */
  lemma NeededExactlyWhenMissing(repos: seq<OwnedRepos>, org: string)
    ensures (forall name :: NeedsMerge(repos, org, name) <==> !Owns(repos, org, name)) <==> FirstHasAll(repos, org)
    ensures UniqueOwners(repos) ==> FirstHasAll(repos, org)
  {
    var i := FirstOf(repos, org);
    if FirstHasAll(repos, org) {
      forall name ensures NeedsMerge(repos, org, name) <==> !Owns(repos, org, name) {
        NeededUnlessHidden(repos, org, name);
      }
    } else {
      var j, name :| 0 <= j < |repos| && repos[j].owner == org && name in repos[j].names && name !in repos[i].names;
      assert Owns(repos, org, name) && NeedsMerge(repos, org, name);
    }
  }

  lemma MergeKeepsOwnersUnique(repos: seq<OwnedRepos>, org: string, name: string)
    requires UniqueOwners(repos)
    ensures UniqueOwners(MergeRepos(repos, org, name))
    ensures forall j :: 0 <= j < |repos| ==> MergeRepos(repos, org, name)[j].owner == repos[j].owner
  {
  }

  /** Merging again changes nothing and asks for nothing. */
  lemma MergeIsIdempotent(s: Source, org: string, name: string)
    requires s.github.Some?
    ensures Merge(Merge(s, org, name), org, name) == Merge(s, org, name)
    ensures !NeedsMerge(SectionOf(Merge(s, org, name)).repositories, org, name)
  {
    var repos := SectionOf(s).repositories;
    if NeedsMerge(repos, org, name) {
      var i, merged := FirstOf(repos, org), MergeRepos(repos, org, name);
      assert SectionOf(Merge(s, org, name)).repositories == merged;
      assert forall j :: 0 <= j < i ==> merged[j].owner == repos[j].owner;
      assert merged[i].owner == org && name in merged[i].names;
      assert FirstOf(merged, org) == i;
    }
  }

  /** With an owner listed twice, a pair in the second entry is added once more. */
  lemma HiddenPairsAreAddedAgain()
    ensures var repos := [OwnedRepos("org", []), OwnedRepos("org", ["repo"])];
      && !FirstHasAll(repos, "org") && IsHidden(repos, "org", "repo")
      && Owns(repos, "org", "repo") && MergeRepos(repos, "org", "repo") != repos
  {
    var repos := [OwnedRepos("org", []), OwnedRepos("org", ["repo"])];
    assert FirstOf(repos, "org") == 0;
    assert repos[1].owner == "org" && "repo" in repos[1].names;
    assert MergeRepos(repos, "org", "repo")[0].names == ["repo"];
  }
}
