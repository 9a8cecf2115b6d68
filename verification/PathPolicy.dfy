/** Sensitive paths of `project_registry.py`: a path is sensitive when one of its components, in
    lower case, matches one of the fixed patterns. */
module PathPolicy {
  import opened Basics

  const SENSITIVE_NAMES: seq<string> :=
    [".git", ".codemcp", "id_rsa", "id_ed25519", "credentials", "password", "passwd", "secret", "secrets", "token"]

  const SENSITIVE_SUFFIXES: seq<string> := [".pem", ".key", ".p12", ".pfx", ".crt", ".cer"]

  predicate EndsWith(s: string, suffix: string) {
    |suffix| <= |s| && s[|s| - |suffix|..] == suffix
  }

  predicate Contains(s: string, part: string) {
    exists k :: 0 <= k <= |s| && part <= s[k..]
  }

  /** A component that matches a name, `*.env`, `*.env.*` or `*` and a suffix. */
  predicate IsSensitiveName(name: string) {
    var lower := Lower(name);
    || lower in SENSITIVE_NAMES
    || EndsWith(lower, ".env") || Contains(lower, ".env.")
    || (exists k :: 0 <= k < |SENSITIVE_SUFFIXES| && EndsWith(lower, SENSITIVE_SUFFIXES[k]))
  }

  /** The shell patterns of the source: the names, `*.env`, `*.env.*`, and `*` with each suffix. */
  ghost const SENSITIVE_GLOBS: set<string> :=
    (set k | 0 <= k < |SENSITIVE_NAMES| :: SENSITIVE_NAMES[k]) + {"*.env", "*.env.*"}
    + (set k | 0 <= k < |SENSITIVE_SUFFIXES| :: "*" + SENSITIVE_SUFFIXES[k])

  /** A shell pattern whose only wildcard is `*`. */
  ghost predicate Glob(pattern: string, s: string) {
    if pattern == "" then s == ""
    else if pattern[0] == '*' then exists k :: 0 <= k <= |s| && Glob(pattern[1..], s[k..])
    else s != "" && s[0] == pattern[0] && Glob(pattern[1..], s[1..])
  }

  lemma {:induction false} GlobLiteral(p: string, s: string)
    requires '*' !in p
    ensures Glob(p, s) <==> s == p
  {
    if p != "" {
      assert p[0] in p;
      assert p == [p[0]] + p[1..];
      if s != "" {
        assert s == [s[0]] + s[1..];
        GlobLiteral(p[1..], s[1..]);
      }
    }
  }

  lemma {:induction false} GlobPrefix(p: string, s: string)
    requires '*' !in p
    ensures Glob(p + "*", s) <==> p <= s
  {
    if p == "" {
      assert (p + "*")[1..] == "" && s[|s|..] == "";
    } else {
      assert p[0] in p;
      assert (p + "*")[1..] == p[1..] + "*";
      if s != "" {
        GlobPrefix(p[1..], s[1..]);
        assert p == [p[0]] + p[1..] && s == [s[0]] + s[1..];
      }
    }
  }

  lemma GlobSuffix(p: string, s: string)
    requires '*' !in p
    ensures Glob("*" + p, s) <==> EndsWith(s, p)
  {
    assert ("*" + p)[1..] == p;
    forall k | 0 <= k <= |s| ensures Glob(p, s[k..]) <==> s[k..] == p {
      GlobLiteral(p, s[k..]);
    }
    if EndsWith(s, p) { assert Glob(p, s[|s| - |p|..]); }
  }

  lemma GlobPart(p: string, s: string)
    requires '*' !in p
    ensures Glob("*" + p + "*", s) <==> Contains(s, p)
  {
    assert ("*" + p + "*")[1..] == p + "*";
    forall k | 0 <= k <= |s| ensures Glob(p + "*", s[k..]) <==> p <= s[k..] {
      GlobPrefix(p, s[k..]);
    }
  }

  /** A component is sensitive exactly when, in lower case, it matches one of the patterns. */
  lemma SensitiveByGlob(name: string)
    ensures IsSensitiveName(name) <==> exists g :: g in SENSITIVE_GLOBS && Glob(g, Lower(name))
  {
    hide Glob;
    hide Contains;
    hide EndsWith;
    hide Lower;
    var lower := Lower(name);
    GlobSuffix(".env", lower);
    GlobPart(".env.", lower);
    assert "*" + ".env" == "*.env" && "*" + ".env." + "*" == "*.env.*";
    assert "*.env" in SENSITIVE_GLOBS && "*.env.*" in SENSITIVE_GLOBS;
    forall k | 0 <= k < |SENSITIVE_NAMES|
      ensures SENSITIVE_NAMES[k] in SENSITIVE_GLOBS && (Glob(SENSITIVE_NAMES[k], lower) <==> lower == SENSITIVE_NAMES[k])
    {
      GlobLiteral(SENSITIVE_NAMES[k], lower);
    }
    forall k | 0 <= k < |SENSITIVE_SUFFIXES|
      ensures "*" + SENSITIVE_SUFFIXES[k] in SENSITIVE_GLOBS
      ensures Glob("*" + SENSITIVE_SUFFIXES[k], lower) <==> EndsWith(lower, SENSITIVE_SUFFIXES[k])
    {
      GlobSuffix(SENSITIVE_SUFFIXES[k], lower);
    }
  }

  predicate IsSensitive(path: Path) {
    exists k :: 0 <= k < |path| && IsSensitiveName(path[k])
  }

  /** A path is sensitive when its directory is, or its last component is. */
  lemma SensitiveStep(directory: Path, name: string)
    ensures IsSensitive(directory + [name]) <==> IsSensitive(directory) || IsSensitiveName(name)
  {
    hide IsSensitiveName;
    var path := directory + [name];
    if IsSensitive(directory) {
      var k :| 0 <= k < |directory| && IsSensitiveName(directory[k]);
      assert path[k] == directory[k];
    }
    assert path[|directory|] == name;
  }
}
