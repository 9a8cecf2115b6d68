/** Edits that keep a file's line endings (`mcp_server.py`). The text of a file is what its bytes
    decode to. */
module LineEndings {
  import opened Basics

  datatype EditError = NotFound | NotUnique

  /** How often `p` occurs in `s`, scanning left to right without overlaps. */
  function Count(s: string, p: string): nat
    requires p != ""
  {
    if |s| < |p| then 0
    else if p <= s then 1 + Count(s[|p|..], p)
    else Count(s[1..], p)
  }

  function ReplaceAll(s: string, p: string, q: string): string
    requires p != ""
  {
    if |s| < |p| then s
    else if p <= s then q + ReplaceAll(s[|p|..], p, q)
    else [s[0]] + ReplaceAll(s[1..], p, q)
  }

  function ReplaceFirst(s: string, p: string, q: string): string {
    if p <= s then q + s[|p|..]
    else if s == "" then s
    else [s[0]] + ReplaceFirst(s[1..], p, q)
  }

  /** Python counts an empty pattern once per position. */
  function Matches(s: string, p: string): nat {
    if p == "" then |s| + 1 else Count(s, p)
  }

  function Normalized(value: string): string {
    ReplaceAll(ReplaceAll(value, "\r\n", "\n"), "\r", "\n")
  }

  /** `value` with the line endings of `raw`. */
  function MatchExisting(raw: string, value: string): string {
    if Count(raw, "\r\n") > 0 && Count(raw, "\n") == Count(raw, "\r\n")
    then ReplaceAll(Normalized(value), "\n", "\r\n")
    else Normalized(value)
  }

  function ReplaceExact(raw: string, old_: string, new_: string): Result<string, EditError> {
    var p := MatchExisting(raw, old_);
    if Matches(raw, p) == 0 then Err(NotFound)
    else if Matches(raw, p) > 1 then Err(NotUnique)
    else Ok(ReplaceFirst(raw, p, MatchExisting(raw, new_)))
  }

  function EncodeExisting(raw: string, content: string): string {
    MatchExisting(raw, content)
  }

  // ---------------------------------------------------------------- what endings mean

  /** Every line feed follows a carriage return. */
  predicate Dos(s: string) {
    forall k :: 0 <= k < |s| && s[k] == '\n' ==> k > 0 && s[k - 1] == '\r'
  }

  /** Every carriage return is followed by a line feed. */
  predicate Paired(s: string) {
    forall k :: 0 <= k < |s| && s[k] == '\r' ==> k + 1 < |s| && s[k + 1] == '\n'
  }

  predicate NoCr(s: string) {
    '\r' !in s
  }

  lemma DosStep(s: string)
    requires s != "" && !("\r\n" <= s) && s[0] != '\n'
    ensures Dos(s) <==> Dos(s[1..])
  {
    if Dos(s) {
      assert forall k :: 0 <= k < |s[1..]| ==> s[1..][k] == s[k + 1];
    }
    if Dos(s[1..]) {
      forall k | 0 <= k < |s| && s[k] == '\n' ensures k > 0 && s[k - 1] == '\r' {
        assert s[1..][k - 1] == '\n';
        assert s[k - 1] == s[1..][k - 2];
      }
    }
  }

  lemma DosPair(s: string)
    requires "\r\n" <= s
    ensures Dos(s) <==> Dos(s[2..])
  {
    if Dos(s) {
      forall k | 0 <= k < |s[2..]| && s[2..][k] == '\n' ensures k > 0 && s[2..][k - 1] == '\r' {
        assert s[k + 2] == '\n' && s[k + 1] == '\r';
      }
    }
    if Dos(s[2..]) {
      forall k | 0 <= k < |s| && s[k] == '\n' ensures k > 0 && s[k - 1] == '\r' {
        if k >= 2 { assert s[2..][k - 2] == '\n' && s[k - 1] == s[2..][k - 3]; }
      }
    }
  }

  /** The two counts of the source agree exactly when every line feed follows a carriage return. */
  lemma {:induction false} CountsAgree(s: string)
    ensures Count(s, "\r\n") <= Count(s, "\n")
    ensures Count(s, "\r\n") == Count(s, "\n") <==> Dos(s)
  {
    if s != "" {
      if "\r\n" <= s {
        CountsAgree(s[2..]);
        DosPair(s);
        assert s[0] == '\r' && s[1..][0] == '\n' && s[1..][1..] == s[2..];
        assert "\n" <= s[1..];
      } else if s[0] == '\n' {
        CountsAgree(s[1..]);
        assert "\n" <= s;
        assert |s| >= 2 ==> !("\r\n" <= s);
      } else {
        CountsAgree(s[1..]);
        DosStep(s);
        assert !("\n" <= s);
      }
    }
  }

  lemma {:induction false} NormalizedHasNoCr(s: string)
    ensures NoCr(ReplaceAll(s, "\r", "\n"))
  {
    if s != "" {
      NormalizedHasNoCr(s[1..]);
    }
  }

  /** Turning every line feed of a text without carriage returns into a pair. */
  lemma {:induction false} ToDos(s: string)
    requires NoCr(s)
    ensures Dos(ReplaceAll(s, "\n", "\r\n")) && Paired(ReplaceAll(s, "\n", "\r\n"))
  {
    if s != "" {
      var rest := ReplaceAll(s[1..], "\n", "\r\n");
      ToDos(s[1..]);
      assert s[0] in s;
      if "\n" <= s {
        JoinDos("\r\n", rest);
      } else {
        JoinDos([s[0]], rest);
      }
    }
  }

  lemma JoinDos(a: string, b: string)
    requires Dos(a) && Dos(b)
    ensures Dos(a + b)
    ensures Paired(a) && Paired(b) ==> Paired(a + b)
  {
  }

  /** A text whose counts agree gets replacements that are pairs throughout. */
  lemma MatchedValue(raw: string, value: string)
    ensures Dos(raw) && Count(raw, "\r\n") > 0 ==>
              Dos(MatchExisting(raw, value)) && Paired(MatchExisting(raw, value))
    ensures NoCr(raw) ==> NoCr(MatchExisting(raw, value))
  {
    CountsAgree(raw);
    var once := ReplaceAll(value, "\r\n", "\n");
    NormalizedHasNoCr(once);
    ToDos(Normalized(value));
    if NoCr(raw) { NoPairs(raw); }
  }

  lemma {:induction false} NoPairs(s: string)
    requires NoCr(s)
    ensures Count(s, "\r\n") == 0
  {
    if |s| >= 2 {
      assert s[0] in s;
      NoPairs(s[1..]);
    }
  }

  /** `p` occurs at `k` and nowhere before. */
  predicate FirstAt(s: string, p: string, k: nat) {
    k <= |s| && p <= s[k..] && forall i :: 0 <= i < k ==> !(p <= s[i..])
  }

  lemma FirstAtTail(s: string, p: string, k: nat)
    requires p != ""
    ensures FirstAt(s, p, 0) <==> p <= s
    ensures s != "" && !(p <= s) ==> (FirstAt(s[1..], p, k) <==> FirstAt(s, p, k + 1))
    ensures k > 0 && FirstAt(s, p, k) ==> s != "" && !(p <= s)
    ensures FirstAt(s, p, k) ==> k + |p| <= |s|
  {
    assert s[0..] == s;
    if s != "" {
      assert forall i :: 0 <= i <= |s[1..]| ==> s[1..][i..] == s[i + 1..];
      if FirstAt(s[1..], p, k) && !(p <= s) {
        forall i | 0 <= i < k + 1 ensures !(p <= s[i..]) {
          if i > 0 { assert !(p <= s[1..][i - 1..]); }
        }
      }
    }
  }

  lemma CountStep(s: string, p: string)
    requires p != "" && Count(s, p) > 0
    ensures |s| >= |p| && s != ""
    ensures Count(s, p) == if p <= s then 1 + Count(s[|p|..], p) else Count(s[1..], p)
  {
  }

  lemma {:induction false} FirstOccurrence(s: string, p: string) returns (k: nat)
    requires p != "" && Count(s, p) > 0
    ensures FirstAt(s, p, k) && k + |p| <= |s| && Count(s, p) == 1 + Count(s[k + |p|..], p)
  {
    hide FirstAt;
    hide Count;
    CountStep(s, p);
    if p <= s {
      k := 0;
      FirstAtTail(s, p, 0);
    } else {
      var j := FirstOccurrence(s[1..], p);
      FirstAtTail(s, p, j);
      k := j + 1;
      assert s[1..][j + |p|..] == s[k + |p|..];
    }
  }

  lemma ReplaceFirstStep(s: string, p: string, q: string)
    ensures p <= s ==> ReplaceFirst(s, p, q) == s[..0] + q + s[|p|..]
    ensures !(p <= s) && s != "" ==> ReplaceFirst(s, p, q) == [s[0]] + ReplaceFirst(s[1..], p, q)
  {
  }

  /** Replacing the first occurrence leaves everything around it. */
  lemma {:induction false} ReplacedAt(s: string, p: string, q: string, k: nat)
    requires p != "" && FirstAt(s, p, k)
    ensures k + |p| <= |s| && ReplaceFirst(s, p, q) == s[..k] + q + s[k + |p|..]
    decreases k
  {
    hide FirstAt;
    hide ReplaceFirst;
    FirstAtTail(s, p, k);
    ReplaceFirstStep(s, p, q);
    if k == 0 {
      FirstAtTail(s, p, 0);
    } else {
      FirstAtTail(s, p, k - 1);
      ReplacedAt(s[1..], p, q, k - 1);
      SplitShift(s, q, k - 1, |p|);
    }
  }

  /** A splice one place to the right. */
  lemma SplitShift(s: string, q: string, k: nat, n: nat)
    requires s != "" && k + n <= |s[1..]|
    ensures [s[0]] + (s[1..][..k] + q + s[1..][k + n..]) == s[..k + 1] + q + s[k + 1 + n..]
  {
    assert s[1..][k + n..] == s[k + 1 + n..];
    assert s[..k + 1] == [s[0]] + s[1..][..k];
  }

  // ---------------------------------------------------------------- the text behind the endings

  /** The lines of a text: they end at a carriage return with a line feed, or at either alone. */
  function Lines(s: string): (lines: seq<string>)
    ensures lines != []
  {
    if s == "" then [""]
    else if "\r\n" <= s then [""] + Lines(s[2..])
    else if s[0] == '\r' || s[0] == '\n' then [""] + Lines(s[1..])
    else [[s[0]] + Lines(s[1..])[0]] + Lines(s[1..])[1..]
  }

  function Join(lines: seq<string>, ending: string): string
    requires lines != []
  {
    if |lines| == 1 then lines[0] else lines[0] + ending + Join(lines[1..], ending)
  }

  /** The line ending of a file: pairs if it has any and no line feed stands alone. */
  function EndingOf(s: string): string {
    if '\n' in s && Dos(s) then "\r\n" else "\n"
  }

  /** The caller's text as it stands in the file: his lines, the file's ending. */
  function InFile(file: string, text: string): string {
    Join(Lines(text), EndingOf(file))
  }

  /** `p` stands at `k`. */
  predicate StandsAt(s: string, p: string, k: nat) {
    k + |p| <= |s| && s[k..k + |p|] == p
  }

  /** The first place where the old text stood in the file now holds the new text, and nothing else changed. */
  ghost predicate Replaced(before: string, old_: string, new_: string, after: string) {
    var p := InFile(before, old_);
    exists k: nat | StandsAt(before, p, k) ::
      && (forall i: nat :: StandsAt(before, p, i) ==> k <= i)
      && after == before[..k] + InFile(before, new_) + before[k + |p|..]
  }

  /** The old text stands in the file, and nowhere else but across that one place. */
  ghost predicate Replaceable(file: string, old_: string) {
    var p := InFile(file, old_);
    exists k: nat | StandsAt(file, p, k) ::
      forall i: nat :: StandsAt(file, p, i) ==> i == k || k < i < k + |p|
  }

  predicate Unbroken(line: string) {
    '\r' !in line && '\n' !in line
  }

  lemma {:induction false} LinesUnbroken(s: string)
    ensures forall k :: 0 <= k < |Lines(s)| ==> Unbroken(Lines(s)[k])
  {
    if s != "" {
      if "\r\n" <= s { LinesUnbroken(s[2..]); } else { LinesUnbroken(s[1..]); }
    }
  }

  /** Joining one more line. */
  lemma JoinStep(c: char, lines: seq<string>, ending: string)
    requires lines != []
    ensures Join([[c] + lines[0]] + lines[1..], ending) == [c] + Join(lines, ending)
    ensures Join([""] + lines, ending) == ending + Join(lines, ending)
  {
    var more := [[c] + lines[0]] + lines[1..];
    assert more[1..] == lines[1..];
    assert ([""] + lines)[1..] == lines;
  }

  lemma LinesStep(c: char, s: string)
    requires c != '\r' && c != '\n'
    ensures Lines([c] + s) == [[c] + Lines(s)[0]] + Lines(s)[1..]
  {
    var t := [c] + s;
    assert t[0] == c && t[1..] == s && !("\r\n" <= t);
  }

  lemma LinesBreak(ending: string, s: string)
    requires ending == "\r\n" || ending == "\n"
    ensures Lines(ending + s) == [""] + Lines(s)
  {
    var t := ending + s;
    assert t[|ending|..] == s;
    if ending == "\r\n" {
      assert t[0] == '\r' && t[1] == '\n' && "\r\n" <= t;
    } else {
      assert t[0] == '\n' && !("\r\n" <= t);
    }
  }

  /** A text is its lines: joined with either ending they are read back. */
  lemma {:induction false} LinesReadBack(lines: seq<string>, ending: string)
    requires lines != [] && (ending == "\r\n" || ending == "\n")
    requires forall k :: 0 <= k < |lines| ==> Unbroken(lines[k])
    ensures Lines(Join(lines, ending)) == lines
    decreases |lines|, |lines[0]|
  {
    hide Lines;
    if lines[0] != "" {
      var c, rest := lines[0][0], [lines[0][1..]] + lines[1..];
      assert lines[0] == [c] + rest[0] && c in lines[0];
      assert lines == [[c] + rest[0]] + rest[1..];
      LinesReadBack(rest, ending);
      JoinStep(c, rest, ending);
      LinesStep(c, Join(rest, ending));
    } else if |lines| > 1 {
      LinesReadBack(lines[1..], ending);
      assert Join(lines, ending) == ending + Join(lines[1..], ending);
      LinesBreak(ending, Join(lines[1..], ending));
      assert lines == [""] + lines[1..];
    } else {
      assert lines == [""];
      EmptyLine();
    }
  }

  lemma EmptyLine()
    ensures Lines("") == [""]
  {
  }

  /** The ending of joined lines is the only one in them. */
  lemma {:induction false} JoinedEndings(lines: seq<string>, ending: string)
    requires lines != [] && forall k :: 0 <= k < |lines| ==> Unbroken(lines[k])
    ensures ending == "\n" ==> NoCr(Join(lines, ending))
    ensures ending == "\r\n" ==> Dos(Join(lines, ending)) && Paired(Join(lines, ending))
  {
    if |lines| == 1 {
      assert forall k :: 0 <= k < |lines[0]| ==> lines[0][k] in lines[0];
    } else {
      JoinedEndings(lines[1..], ending);
      if ending == "\r\n" {
        assert Dos(lines[0]) && Paired(lines[0]) by {
          assert forall k :: 0 <= k < |lines[0]| ==> lines[0][k] in lines[0];
        }
        JoinDos(lines[0], ending);
        JoinDos(lines[0] + ending, Join(lines[1..], ending));
      }
    }
  }

  lemma {:induction false} NormalizedJoins(s: string)
    ensures Normalized(s) == Join(Lines(s), "\n")
  {
    if s != "" {
      var n := if "\r\n" <= s then 2 else 1;
      NormalizedJoins(s[n..]);
      JoinStep(s[0], Lines(s[n..]), "\n");
      var rest := ReplaceAll(s[n..], "\r\n", "\n");
      if n == 2 {
        assert ReplaceAll(s, "\r\n", "\n") == "\n" + rest;
        assert ("\n" + rest)[0] == '\n' && ("\n" + rest)[1..] == rest;
      } else {
        assert ReplaceAll(s, "\r\n", "\n") == [s[0]] + rest by {
          if |s| < 2 { assert s == [s[0]] + s[1..]; }
        }
        assert ([s[0]] + rest)[1..] == rest;
        if s[0] == '\r' { assert "\r" <= [s[0]] + rest; } else { assert !("\r" <= [s[0]] + rest); }
      }
    }
  }

  lemma {:induction false} DosJoins(lines: seq<string>)
    requires lines != [] && forall k :: 0 <= k < |lines| ==> Unbroken(lines[k])
    ensures ReplaceAll(Join(lines, "\n"), "\n", "\r\n") == Join(lines, "\r\n")
    decreases |lines|, |lines[0]|
  {
    var s := Join(lines, "\n");
    if lines[0] != "" {
      var c, rest := lines[0][0], [lines[0][1..]] + lines[1..];
      assert lines[0] == [c] + lines[0][1..] && c in lines[0];
      DosJoins(rest);
      JoinStep(c, rest, "\n");
      JoinStep(c, rest, "\r\n");
      assert lines == [[c] + rest[0]] + rest[1..];
      assert s[1..] == Join(rest, "\n") && !("\n" <= s);
    } else if |lines| > 1 {
      DosJoins(lines[1..]);
      assert s == "\n" + Join(lines[1..], "\n");
      assert s[1..] == Join(lines[1..], "\n") && "\n" <= s;
    }
  }

  lemma {:induction false} CountFeeds(s: string)
    ensures Count(s, "\n") > 0 <==> '\n' in s
  {
    if s != "" {
      assert s == [s[0]] + s[1..];
      assert "\n" <= s <==> s[0] == '\n';
      CountFeeds(s[1..]);
    }
  }

  /** What is written of the caller's text is his lines with the file's own ending. */
  lemma MatchedLines(file: string, text: string)
    ensures MatchExisting(file, text) == InFile(file, text)
    ensures Lines(InFile(file, text)) == Lines(text)
    ensures EndingOf(file) == "\n" ==> NoCr(InFile(file, text))
    ensures EndingOf(file) == "\r\n" ==> Dos(InFile(file, text)) && Paired(InFile(file, text))
  {
    CountsAgree(file);
    CountFeeds(file);
    NormalizedJoins(text);
    LinesUnbroken(text);
    DosJoins(Lines(text));
    LinesReadBack(Lines(text), EndingOf(file));
    JoinedEndings(Lines(text), EndingOf(file));
  }

  // ---------------------------------------------------------------- the promises

  /** An accepted edit is the caller's: his old text stood in the file, line by line, and its first place
      holds the new text, line by line. */
  lemma EditsReplace(raw: string, old_: string, new_: string)
    ensures ReplaceExact(raw, old_, new_).Ok? ==> Replaced(raw, old_, new_, ReplaceExact(raw, old_, new_).value)
  {
    hide FirstAt;
    hide InFile;
    hide StandsAt;
    hide ReplaceFirst;
    hide Count;
    hide Replaced;
    hide MatchExisting;
    var p, q := InFile(raw, old_), InFile(raw, new_);
    MatchedLines(raw, old_);
    MatchedLines(raw, new_);
    if p == "" {
      EmptyStands(raw);
      ReplaceFirstStep(raw, p, q);
      assert raw[|p|..] == raw[0 + |p|..];
      ReplacedThere(raw, old_, new_, 0);
    } else if Count(raw, p) > 0 {
      var k := FirstOccurrence(raw, p);
      ReplacedAt(raw, p, q, k);
      FirstStands(raw, p, k);
      ReplacedThere(raw, old_, new_, k);
    }
  }

  lemma ReplacedThere(s: string, old_: string, new_: string, k: nat)
    requires var p := InFile(s, old_); StandsAt(s, p, k) && forall i: nat :: StandsAt(s, p, i) ==> k <= i
    ensures k + |InFile(s, old_)| <= |s|
    ensures Replaced(s, old_, new_, s[..k] + InFile(s, new_) + s[k + |InFile(s, old_)|..])
  {
    hide InFile;
  }

  lemma EmptyStands(s: string)
    ensures StandsAt(s, "", 0)
  {
  }

  /** The first occurrence stands there, and none before it. */
  lemma FirstStands(s: string, p: string, k: nat)
    requires FirstAt(s, p, k) && k + |p| <= |s|
    ensures StandsAt(s, p, k) && forall i: nat :: StandsAt(s, p, i) ==> k <= i
  {
    forall i: nat ensures StandsAt(s, p, i) <==> i <= |s| && p <= s[i..] {
      StandsMeans(s, p, i);
    }
  }

  /** A file with carriage returns before all its line feeds keeps them, and a file without any keeps
      none, whatever endings the caller's strings have. */
  lemma EditsKeepLineEndings(raw: string, old_: string, new_: string)
    requires ReplaceExact(raw, old_, new_).Ok?
    ensures Dos(raw) && Count(raw, "\r\n") > 0 ==> Dos(ReplaceExact(raw, old_, new_).value)
    ensures NoCr(raw) ==> NoCr(ReplaceExact(raw, old_, new_).value)
  {
    var p, q := MatchExisting(raw, old_), MatchExisting(raw, new_);
    MatchedValue(raw, old_);
    MatchedValue(raw, new_);
    if p != "" {
      var k := FirstOccurrence(raw, p);
      ReplacedAt(raw, p, q, k);
      if Dos(raw) && Count(raw, "\r\n") > 0 {
        SpliceDos(raw, p, q, k);
      }
    } else {
      assert ReplaceFirst(raw, p, q) == q + raw;
    }
  }

  /** The seam after the replaced text is safe because that text never ends inside a pair. */
  lemma SpliceDos(raw: string, p: string, q: string, k: nat)
    requires Dos(raw) && Dos(q) && Paired(p) && p != ""
    requires k + |p| <= |raw| && raw[k..k + |p|] == p
    ensures Dos(raw[..k] + q + raw[k + |p|..])
  {
    var suffix := raw[k + |p|..];
    assert raw[k + |p| - 1] == p[|p| - 1];
    forall i | 0 <= i < |suffix| && suffix[i] == '\n' ensures i > 0 && suffix[i - 1] == '\r' {
      assert raw[k + |p| + i] == '\n' && raw[k + |p| + i - 1] == '\r';
    }
    JoinDos(raw[..k], q);
    JoinDos(raw[..k] + q, suffix);
  }

  lemma OverwritesKeepLineEndings(raw: string, content: string)
    ensures Dos(raw) && Count(raw, "\r\n") > 0 ==> Dos(EncodeExisting(raw, content))
    ensures NoCr(raw) ==> NoCr(EncodeExisting(raw, content))
  {
    MatchedValue(raw, content);
  }

  /** An edit is accepted exactly when the old text occurs and every other occurrence overlaps the
      first: overlapping occurrences are not counted. The empty text occurs once in the empty file. */
  lemma AcceptedExactly(raw: string, old_: string, new_: string)
    ensures ReplaceExact(raw, old_, new_).Ok? <==> Replaceable(raw, old_)
  {
    hide InFile;
    hide StandsAt;
    MatchedLines(raw, old_);
    AcceptedPattern(raw, old_, new_);
    forall k: nat ensures StandsAt(raw, InFile(raw, old_), k) <==> k <= |raw| && InFile(raw, old_) <= raw[k..] {
      StandsMeans(raw, InFile(raw, old_), k);
    }
  }

  lemma StandsMeans(s: string, p: string, k: nat)
    ensures StandsAt(s, p, k) <==> k <= |s| && p <= s[k..]
  {
    if StandsAt(s, p, k) { assert s[k..][..|p|] == s[k..k + |p|]; }
    if k <= |s| && p <= s[k..] { assert s[k..][..|p|] == s[k..k + |p|]; }
  }

  lemma AcceptedPattern(raw: string, old_: string, new_: string)
    ensures var p := MatchExisting(raw, old_);
            ReplaceExact(raw, old_, new_).Ok? <==>
              exists k :: 0 <= k <= |raw| && p <= raw[k..] && OthersOverlap(raw, p, k)
  {
    var p := MatchExisting(raw, old_);
    if p == "" {
      EmptyPattern(raw);
    } else if Count(raw, p) > 0 {
      var k := FirstOccurrence(raw, p);
      CountZero(raw[k + |p|..], p);
      assert p <= raw[k..];
      if Count(raw, p) == 1 {
        forall i | k + |p| <= i <= |raw| ensures !(p <= raw[i..]) {
          assert raw[i..] == raw[k + |p|..][i - k - |p|..];
        }
        assert OthersOverlap(raw, p, k);
      } else {
        var j :| 0 <= j <= |raw[k + |p|..]| && p <= raw[k + |p|..][j..];
        assert raw[k + |p|..][j..] == raw[k + |p| + j..];
        assert !OthersOverlap(raw, p, k);
        forall m | 0 <= m <= |raw| && p <= raw[m..] ensures !OthersOverlap(raw, p, m) {
          assert m >= k;
        }
      }
    } else {
      CountZero(raw, p);
    }
  }

  /** Every occurrence other than the one at `k` starts inside that one. */
  predicate OthersOverlap(s: string, p: string, k: nat) {
    forall i :: 0 <= i <= |s| && p <= s[i..] ==> i == k || k < i < k + |p|
  }

  /** The empty text occurs at every position. */
  lemma EmptyPattern(s: string)
    ensures s == "" <==> exists k :: 0 <= k <= |s| && "" <= s[k..] && OthersOverlap(s, "", k)
  {
    if s == "" {
      assert "" <= s[0..] && OthersOverlap(s, "", 0);
    } else {
      forall k | 0 <= k <= |s| ensures !OthersOverlap(s, "", k) {
        var i := if k == 0 then 1 else 0;
        assert "" <= s[i..];
      }
    }
  }

  lemma {:induction false} CountZero(s: string, p: string)
    requires p != ""
    ensures Count(s, p) == 0 <==> forall i :: 0 <= i <= |s| ==> !(p <= s[i..])
  {
    if |s| >= |p| {
      assert s[0..] == s;
      if !(p <= s) {
        CountZero(s[1..], p);
        if Count(s, p) == 0 {
          forall i | 0 <= i <= |s| ensures !(p <= s[i..]) {
            if i > 0 { assert s[i..] == s[1..][i - 1..]; }
          }
        } else {
          var i :| 0 <= i <= |s[1..]| && p <= s[1..][i..];
          assert s[1..][i..] == s[i + 1..];
        }
      }
    }
  }

  lemma {:induction false} ReplaceAbsent(s: string, p: string, q: string)
    requires p != "" && p[0] !in s
    ensures ReplaceAll(s, p, q) == s
  {
    if |s| >= |p| {
      assert s[0] in s;
      ReplaceAbsent(s[1..], p, q);
    }
  }

  /** An accepted edit whose old text occurs at two places. */
  lemma OverlapAccepted(raw: string, old_: string)
    requires raw == "aaa" && old_ == "aa"
    ensures ReplaceExact(raw, old_, "").Ok? && old_ <= raw[0..] && old_ <= raw[1..]
  {
    NoPairs(raw);
    ReplaceAbsent(old_, "\r\n", "\n");
    ReplaceAbsent(old_, "\r", "\n");
    assert MatchExisting(raw, old_) == old_;
    assert raw[2..] == "a" && raw[0..] == raw;
    assert Count(raw, old_) == 1 + Count(raw[2..], old_);
  }
}
