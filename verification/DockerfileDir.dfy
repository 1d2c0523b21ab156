/** The image suffix of a Dockerfile, and the default path of one. */
module DockerfileDir {
  import opened Text

  /** filepath.Split: the directory keeps its trailing slash, the file has none. */
  function SplitPath(path: string): (r: (string, string))
    ensures r.0 + r.1 == path
    ensures '/' !in r.1
    ensures r.0 == "" || r.0[|r.0| - 1] == '/'
  {
    if path == [] then ("", "")
    else if path[|path| - 1] == '/' then (path, "")
    else
      var (dir, file) := SplitPath(path[..|path| - 1]);
      (dir, file + [path[|path| - 1]])
  }

  function TrimFile(file: string): string {
    var cutset := {' ', '.', '-', '_'};
    TrimRightSet(TrimLeftSet(ReplaceAll(ToLower(file), "dockerfile", ""), cutset), cutset)
  }

  function GetDockerfileDir(dockerfilePath: string): string {
    var (dir, base) := SplitPath(dockerfilePath);
    var file := TrimFile(base);
    if file == "" && dir == "" then ""
    else if dir == "" then "/" + file
    else
      var rooted := if StartsWith(dir, "/") then dir else "/" + dir;
      if file == "" then TrimRight(rooted, '/') else rooted + file
  }

  function GetDefaultDockerfilePath(contextDir: string): string {
    if contextDir == "" then "Dockerfile" else contextDir + "/" + "Dockerfile"
  }

  // ------------------------------------------------------------------ no slash appears from nowhere

  lemma LowerKeepsSlashes(s: string)
    requires '/' !in s
    ensures '/' !in ToLower(s)
  {
    forall i | 0 <= i < |s| ensures ToLower(s)[i] != '/' {
      assert s[i] != '/';
      assert 'A' <= s[i] <= 'Z' ==> LowerChar(s[i]) as int == s[i] as int - 'A' as int + 'a' as int;
    }
  }

  lemma {:induction false} ReplaceKeepsSlashes(s: string, from: string)
    requires '/' !in s && from != []
    ensures '/' !in ReplaceAll(s, from, "")
  {
    if s != [] {
      if StartsWith(s, from) {
        ReplaceKeepsSlashes(s[|from|..], from);
      } else {
        ReplaceKeepsSlashes(s[1..], from);
      }
    }
  }

  lemma {:induction false} TrimLeftIsPart(s: string, cutset: set<char>)
    ensures forall c <- TrimLeftSet(s, cutset) :: c in s
  {
    if s != [] && s[0] in cutset { TrimLeftIsPart(s[1..], cutset); }
  }

  lemma {:induction false} TrimRightIsPart(s: string, cutset: set<char>)
    ensures forall c <- TrimRightSet(s, cutset) :: c in s
  {
    if s != [] && s[|s| - 1] in cutset { TrimRightIsPart(s[..|s| - 1], cutset); }
  }

  lemma FileHasNoSlash(file: string)
    requires '/' !in file
    ensures '/' !in TrimFile(file)
  {
    var cutset := {' ', '.', '-', '_'};
    LowerKeepsSlashes(file);
    ReplaceKeepsSlashes(ToLower(file), "dockerfile");
    TrimLeftIsPart(ReplaceAll(ToLower(file), "dockerfile", ""), cutset);
    TrimRightIsPart(TrimLeftSet(ReplaceAll(ToLower(file), "dockerfile", ""), cutset), cutset);
  }

  lemma {:induction false} TrimRightLaw(s: string, c: char)
    ensures var t := TrimRight(s, c);
      && StartsWith(s, t)
      && (t != "" ==> t[|t| - 1] != c)
      && forall i :: |t| <= i < |s| ==> s[i] == c
  {
    if s != [] && s[|s| - 1] == c { TrimRightLaw(s[..|s| - 1], c); }
  }

  /** Appended to an image repository, the suffix is nothing, or starts with one "/" and ends with none. */
  lemma SuffixIsWellFormed(dockerfilePath: string)
    ensures var suffix := GetDockerfileDir(dockerfilePath);
      suffix == "" || (suffix[0] == '/' && suffix[|suffix| - 1] != '/')
  {
    var (dir, base) := SplitPath(dockerfilePath);
    var file := TrimFile(base);
    FileHasNoSlash(base);
    if dir != "" {
      var rooted := if StartsWith(dir, "/") then dir else "/" + dir;
      assert rooted[0] == '/';
      TrimRightLaw(rooted, '/');
    }
    if file != "" { assert file[|file| - 1] in file; }
  }

  // ------------------------------------------------------------------ the defaulted path

  lemma {:induction false} SplitDirAndFile(dir: string, file: string)
    requires dir == "" || dir[|dir| - 1] == '/'
    requires '/' !in file
    ensures SplitPath(dir + file) == (dir, file)
    decreases |file|
  {
    var path := dir + file;
    if file == "" {
      assert path == dir;
    } else {
      var front := file[..|file| - 1];
      assert path[..|path| - 1] == dir + front;
      assert path[|path| - 1] == file[|file| - 1];
      SplitDirAndFile(dir, front);
      assert front + [file[|file| - 1]] == file;
      assert file[|file| - 1] != '/';
    }
  }

  lemma PlainDockerfileVanishes()
    ensures TrimFile("Dockerfile") == ""
  {
    assert ToLower("Dockerfile") == "dockerfile";
    ReplaceWhole("dockerfile");
  }

  lemma ReplaceWhole(s: string)
    requires s != []
    ensures ReplaceAll(s, s, "") == ""
  {
    assert StartsWith(s, s) && s[|s|..] == [];
    assert ReplaceAll(s, s, "") == "" + ReplaceAll([], s, "");
  }

  lemma TrimOneMore(s: string)
    ensures TrimRight(s + "/", '/') == TrimRight(s, '/')
  {
    assert (s + "/")[..|s|] == s;
  }

  /**
   For every context directory the default Dockerfile's suffix is the directory with a leading slash ensured
   and all trailing slashes removed; the root has none.
   */
  lemma SuffixOfDefaultPath(contextDir: string)
    ensures GetDockerfileDir(GetDefaultDockerfilePath(contextDir)) ==
      if contextDir == "" then ""
      else TrimRight(if StartsWith(contextDir, "/") then contextDir else "/" + contextDir, '/')
  {
    PlainDockerfileVanishes();
    if contextDir == "" {
      SplitDirAndFile("", "Dockerfile");
      assert "" + "Dockerfile" == "Dockerfile";
    } else {
      var dir := contextDir + "/";
      var rooted := if StartsWith(contextDir, "/") then contextDir else "/" + contextDir;
      SplitDirAndFile(dir, "Dockerfile");
      assert GetDefaultDockerfilePath(contextDir) == dir + "Dockerfile";
      assert dir[..1] == contextDir[..1];
      assert (if StartsWith(dir, "/") then dir else "/" + dir) == rooted + "/";
      TrimOneMore(rooted);
    }
  }

  // ------------------------------------------------------------------ Dockerfiles of other names

  predicate OccursIn(s: string, part: string) { exists j :: 0 <= j <= |s| && StartsWith(s[j..], part) }

  lemma {:induction false} NothingToReplace(s: string, from: string)
    requires from != [] && !OccursIn(s, from)
    ensures ReplaceAll(s, from, "") == s
    decreases |s|
  {
    if s != [] {
      assert s[0..] == s && !StartsWith(s, from);
      forall j | 0 <= j <= |s[1..]| ensures !StartsWith(s[1..][j..], from) { assert s[1..][j..] == s[j + 1..]; }
      NothingToReplace(s[1..], from);
      assert s == [s[0]] + s[1..];
    }
  }

  lemma ReplaceFirst(from: string, rest: string)
    requires from != []
    ensures ReplaceAll(from + rest, from, "") == ReplaceAll(rest, from, "")
  {
    assert (from + rest)[..|from|] == from && (from + rest)[|from|..] == rest;
  }

  const MARKS := {' ', '.', '-', '_'}

  // A word that file names use to tell Dockerfiles apart.
  predicate IsWord(x: string) {
    && x != "" && x[0] !in MARKS && x[|x| - 1] !in MARKS && ToLower(x) == x && '/' !in x
    && !OccursIn("." + x, "dockerfile")
  }

  lemma DottedWordIsLower(x: string)
    requires ToLower(x) == x
    ensures ToLower("Dockerfile." + x) == "dockerfile" + ("." + x)
  {
    var a, b := ToLower("Dockerfile." + x), "dockerfile" + ("." + x);
    forall i | 0 <= i < |a| ensures a[i] == b[i] {
      if i >= 11 { assert a[i] == LowerChar(x[i - 11]) == ToLower(x)[i - 11] == x[i - 11]; }
    }
  }

  lemma TrimsToWord(x: string)
    requires IsWord(x)
    ensures TrimRightSet(TrimLeftSet("." + x, MARKS), MARKS) == x
  {
    assert ("." + x)[1..] == x;
    assert TrimLeftSet("." + x, MARKS) == TrimLeftSet(x, MARKS) == x;
  }

  lemma FileOfWord(x: string)
    requires IsWord(x)
    ensures TrimFile("Dockerfile." + x) == x
  {
    DottedWordIsLower(x);
    ReplaceFirst("dockerfile", "." + x);
    NothingToReplace("." + x, "dockerfile");
    TrimsToWord(x);
  }

  lemma SuffixInRoot(file: string)
    requires '/' !in file && TrimFile(file) != ""
    ensures GetDockerfileDir(file) == "/" + TrimFile(file)
  {
    SplitDirAndFile("", file);
    assert "" + file == file;
  }

  lemma SuffixInDir(dir: string, file: string)
    requires '/' !in file && TrimFile(file) != "" && dir != ""
    ensures GetDockerfileDir(dir + "/" + file) ==
      (if StartsWith(dir, "/") then dir else "/" + dir) + "/" + TrimFile(file)
  {
    SplitDirAndFile(dir + "/", file);
    assert (dir + "/")[..1] == dir[..1];
    var rooted := if StartsWith(dir, "/") then dir else "/" + dir;
    assert (if StartsWith(dir + "/", "/") then dir + "/" else "/" + (dir + "/")) == rooted + "/";
  }

  /** A Dockerfile called "Dockerfile.x" has its directory and x as its suffix. */
  lemma SuffixOfNamedFile(dir: string, x: string)
    requires IsWord(x)
    ensures GetDockerfileDir("Dockerfile." + x) == "/" + x
    ensures dir != "" ==>
      GetDockerfileDir(dir + "/" + ("Dockerfile." + x)) == (if StartsWith(dir, "/") then dir else "/" + dir) + "/" + x
  {
    var file := "Dockerfile." + x;
    FileOfWord(x);
    NoSlashIn(x);
    SuffixInRoot(file);
    if dir != "" { SuffixInDir(dir, file); }
  }

  lemma NoSlashIn(x: string)
    requires '/' !in x
    ensures '/' !in "Dockerfile." + x
  {
  }
}
