/** Repository urls, and the ArgoCD source globs made from them. */
module GitUrl {
  import opened Text

  datatype Parsed = Repo(org: string, name: string) | InvalidPrefix | InvalidPath

  const GIT_PREFIX := "https://github.com/"
  const GIT_SUFFIX := ".git"

  function GetRepoOrgName(repoUrl: string): Parsed {
    var url := TrimSuffix(repoUrl, GIT_SUFFIX);
    if !StartsWith(url, GIT_PREFIX) then InvalidPrefix
    else
      var parts := Split(url[|GIT_PREFIX|..], "/");
      if |parts| != 2 then InvalidPath else Repo(parts[0], parts[1])
  }

  function GetSourceRepoGlob(org: string): string { GIT_PREFIX + org + "/*" }

  // ------------------------------------------------------------------ the parser inverts the printer

  lemma SplitPair(a: string, b: string)
    requires '/' !in a && '/' !in b
    ensures Split(a + "/" + b, "/") == [a, b]
  {
    forall j | 0 <= j < |a| ensures !StartsWith((a + "/" + b)[j..], "/") {
      assert (a + "/" + b)[j] == a[j];
      assert (a + "/" + b)[j..][0] == a[j];
    }
    SplitOffFirst(a, "/", b);
    SplitNothing(b, "/", 0);
  }

  lemma {:induction false} SplitHasNoSlash(s: string)
    ensures forall p <- Split(s, "/") :: '/' !in p
    ensures Join(Split(s, "/"), "/") == s
    decreases |s|
  {
    var k := Find(s, "/", 0);
    if k > |s| {
      forall i | 0 <= i < |s| ensures s[i] != '/' {
        assert s[i..][..1] == [s[i]];
      }
    } else {
      OccurrenceAt(s, k, "/", 0);
      forall i | 0 <= i < k ensures s[i] != '/' {
        assert s[i..][..1] == [s[i]];
      }
      SplitHasNoSlash(s[k + 1..]);
      assert s == s[..k] + "/" + s[k + 1..];
    }
  }

  lemma PairJoins(org: string, name: string)
    ensures Join([org, name], "/") == org + "/" + name
  {
    assert [org, name][1..] == [name];
  }

  lemma ParsedSpells(url: string, org: string, name: string)
    requires GetRepoOrgName(url) == Repo(org, name)
    ensures TrimSuffix(url, GIT_SUFFIX) == GIT_PREFIX + org + "/" + name && '/' !in org && '/' !in name
  {
    var u := TrimSuffix(url, GIT_SUFFIX);
    var path := u[|GIT_PREFIX|..];
    var parts := Split(path, "/");
    SplitHasNoSlash(path);
    assert parts == [org, name] && org == parts[0] && name == parts[1];
    assert '/' !in parts[0] && '/' !in parts[1];
    PairJoins(org, name);
    assert u == GIT_PREFIX + path;
  }

  lemma SpelledParses(url: string, org: string, name: string)
    requires TrimSuffix(url, GIT_SUFFIX) == GIT_PREFIX + org + "/" + name && '/' !in org && '/' !in name
    ensures GetRepoOrgName(url) == Repo(org, name)
  {
    var u := TrimSuffix(url, GIT_SUFFIX);
    assert u[..|GIT_PREFIX|] == GIT_PREFIX;
    assert u[|GIT_PREFIX|..] == org + "/" + name;
    SplitPair(org, name);
  }

  /** Parsing succeeds with (org, name) exactly on the urls that spell them out. */
  lemma ParsedExactly(url: string, org: string, name: string)
    ensures GetRepoOrgName(url) == Repo(org, name) <==>
      TrimSuffix(url, ".git") == "https://github.com/" + org + "/" + name && '/' !in org && '/' !in name
  {
    if GetRepoOrgName(url) == Repo(org, name) {
      ParsedSpells(url, org, name);
    } else if TrimSuffix(url, GIT_SUFFIX) == GIT_PREFIX + org + "/" + name && '/' !in org && '/' !in name {
      SpelledParses(url, org, name);
    }
  }

  lemma ParseInvertsPrint(org: string, name: string)
    requires '/' !in org && '/' !in name
    ensures GetRepoOrgName("https://github.com/" + org + "/" + name + ".git") == Repo(org, name)
    ensures GetRepoOrgName("https://github.com/" + org + "/" + name) == Repo(org, name) <==> !EndsWith(name, ".git")
  {
    var plain := GIT_PREFIX + org + "/" + name;
    assert (plain + ".git")[..|plain|] == plain;
    ParsedExactly(plain + ".git", org, name);
    ParsedExactly(plain, org, name);
    SuffixOfName(GIT_PREFIX + org, name);
  }

  lemma SuffixOfName(before: string, name: string)
    requires '/' !in name
    ensures EndsWith(before + "/" + name, ".git") <==> EndsWith(name, ".git")
  {
    var s := before + "/" + name;
    if |name| >= 4 {
      assert s[|s| - 4..] == name[|name| - 4..];
    } else if |s| >= 4 {
      assert s[|s| - 4..][3 - |name|] == '/';
    }
  }

  // ------------------------------------------------------------------ globs

  /** Glob matching with '/' as separator: '*' stands for any run without one. */
  predicate Glob(pattern: string, s: string)
    decreases |pattern| + |s|
  {
    if pattern == [] then s == []
    else if pattern[0] == '*' then Glob(pattern[1..], s) || (s != [] && s[0] != '/' && Glob(pattern, s[1..]))
    else s != [] && s[0] == pattern[0] && Glob(pattern[1..], s[1..])
  }

  lemma {:induction false} StarMatches(s: string)
    ensures Glob("*", s) <==> '/' !in s
  {
    if s != [] { StarMatches(s[1..]); }
    assert "*"[1..] == [];
  }

  lemma {:induction false} LiteralMatchesItself(lit: string, pattern: string, s: string)
    requires Glob(pattern, s)
    ensures Glob(lit + pattern, lit + s)
  {
    if lit == [] {
      assert lit + pattern == pattern && lit + s == s;
    } else {
      LiteralMatchesItself(lit[1..], pattern, s);
      assert (lit + pattern)[1..] == lit[1..] + pattern && (lit + s)[1..] == lit[1..] + s;
      if lit[0] == '*' {
        assert Glob((lit + pattern)[1..], (lit + s)[1..]);
        assert Glob(lit + pattern, (lit + s)[1..]);
      }
    }
  }

  lemma {:induction false} LiteralMatchesOnlyItself(lit: string, pattern: string, s: string)
    requires '*' !in lit && Glob(lit + pattern, s)
    ensures StartsWith(s, lit) && Glob(pattern, s[|lit|..])
  {
    if lit == [] {
      assert lit + pattern == pattern && s[0..] == s;
    } else {
      assert (lit + pattern)[1..] == lit[1..] + pattern;
      LiteralMatchesOnlyItself(lit[1..], pattern, s[1..]);
      assert s[1..][|lit| - 1..] == s[|lit|..];
    }
  }

  /** The glob of an organisation covers each of its repositories, written with or without ".git". */
  lemma GlobCovers(url: string, org: string, name: string)
    requires GetRepoOrgName(url) == Repo(org, name)
    ensures Glob(GetSourceRepoGlob(org), url)
  {
    ParsedExactly(url, org, name);
    var rest := if EndsWith(url, GIT_SUFFIX) then name + ".git" else name;
    assert url == TrimSuffix(url, GIT_SUFFIX) + if EndsWith(url, GIT_SUFFIX) then ".git" else "";
    assert url == GIT_PREFIX + org + "/" + rest;
    StarMatches(rest);
    LiteralMatchesItself(GIT_PREFIX + org + "/", "*", rest);
    assert GIT_PREFIX + org + "/" + "*" == GetSourceRepoGlob(org);
  }

  // What follows a prefix, up to the next slash, is decided by the string.
  lemma SameUpToSlash(prefix: string, a: string, b: string, s: string)
    requires '/' !in a && '/' !in b
    requires StartsWith(s, prefix + a + "/") && StartsWith(s, prefix + b + "/")
    ensures a == b
  {
    var rest := s[|prefix|..];
    assert (prefix + a + "/")[|prefix|..] == a + "/" && (prefix + b + "/")[|prefix|..] == b + "/";
    assert rest[..|a| + 1] == s[..|prefix| + |a| + 1][|prefix|..];
    assert rest[..|b| + 1] == s[..|prefix| + |b| + 1][|prefix|..];
    FirstSlash(a, b, rest);
  }

  // The text up to the first slash is decided by the string.
  lemma FirstSlash(a: string, b: string, s: string)
    requires '/' !in a && '/' !in b
    requires StartsWith(s, a + "/") && StartsWith(s, b + "/")
    ensures a == b
  {
    assert s[|a|] == (a + "/")[|a|] && s[|b|] == (b + "/")[|b|];
    assert forall i :: 0 <= i < |a| ==> s[i] == (a + "/")[i] == a[i];
    assert forall i :: 0 <= i < |b| ==> s[i] == (b + "/")[i] == b[i];
    if |a| < |b| {
      assert false;
    } else if |b| < |a| {
      assert false;
    }
  }

  lemma GlobStartsUrl(url: string, org: string)
    requires Glob(GetSourceRepoGlob(org), url) && '*' !in org
    ensures StartsWith(url, GIT_PREFIX + org + "/")
  {
    assert GIT_PREFIX + org + "/" + "*" == GetSourceRepoGlob(org);
    LiteralMatchesOnlyItself(GIT_PREFIX + org + "/", "*", url);
  }

  lemma SpelledStartsUrl(url: string, stem: string, prefix: string, org: string, name: string)
    requires StartsWith(url, stem) && stem == prefix + org + "/" + name
    ensures StartsWith(url, prefix + org + "/")
  {
    var head := prefix + org + "/";
    assert stem == head + name;
    assert stem[..|head|] == head;
    assert url[..|head|] == url[..|stem|][..|head|];
  }

  /** And it covers no other organisation's. */
  lemma GlobCoversNoOther(url: string, org: string, other: string, name: string)
    requires GetRepoOrgName(url) == Repo(other, name) && '*' !in org && '/' !in org
    requires Glob(GetSourceRepoGlob(org), url)
    ensures other == org
  {
    ParsedSpells(url, other, name);
    GlobStartsUrl(url, org);
    SpelledStartsUrl(url, TrimSuffix(url, GIT_SUFFIX), GIT_PREFIX, other, name);
    SameUpToSlash(GIT_PREFIX, org, other, url);
  }
}
