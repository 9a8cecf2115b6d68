/** The session footer of a WIP commit: how a message is written, and how it is read back. */
module Footers {
  import opened Basics
  import opened ReplayKeys

  const FOOTER_PREFIX := "Codemcp-Remote-Session: "

  /** The characters at which Python's `splitlines` ends a line. */
  predicate IsBreak(c: char) {
    || '\n' <= c <= '\r'
    || '\U{1C}' <= c <= '\U{1E}'
    || c == '\U{85}' || c == '\U{2028}' || c == '\U{2029}'
  }

  /** The position of the first line break, or the length. */
  function FirstBreak(s: string): (k: nat)
    ensures k <= |s| && (k < |s| ==> IsBreak(s[k]))
    ensures forall i :: 0 <= i < k ==> !IsBreak(s[i])
  {
    if s == "" || IsBreak(s[0]) then 0 else 1 + FirstBreak(s[1..])
  }

  function BreakWidth(s: string, k: nat): (w: nat)
    requires k < |s|
    ensures 1 <= w && k + w <= |s| && (s[k] != '\r' ==> w == 1)
  {
    if s[k] == '\r' && k + 1 < |s| && s[k + 1] == '\n' then 2 else 1
  }

  /** A carriage return and the line feed after it are one break; the last line is never empty. */
  function SplitLines(s: string): (lines: seq<string>)
    ensures lines == [] <==> s == ""
  {
    if s == "" then []
    else
      var k := FirstBreak(s);
      if k == |s| then [s]
      else [s[..k]] + SplitLines(s[k + BreakWidth(s, k)..])
  }

  function TrimEnd(s: string): string {
    if s != "" && (s[|s| - 1] == '\r' || s[|s| - 1] == '\n') then TrimEnd(s[..|s| - 1]) else s
  }

  predicate StartsFooter(line: string) {
    FOOTER_PREFIX <= line
  }

  function FooterLines(lines: seq<string>): (r: seq<string>)
    ensures forall k :: 0 <= k < |r| ==> StartsFooter(r[k])
  {
    if lines == [] then []
    else (if StartsFooter(lines[0]) then [lines[0]] else []) + FooterLines(lines[1..])
  }

  /** The session of a message whose only footer line is its last line and names a valid session. */
  function ParseFooter(message: string): Option<string> {
    var lines := SplitLines(TrimEnd(message));
    var footers := FooterLines(lines);
    if |footers| != 1 || lines[|lines| - 1] != footers[0] then None
    else
      var session := footers[0][|FOOTER_PREFIX|..];
      if ValidRequestId(session) then Some(session) else None
  }

  predicate ValidDescription(d: string) {
    1 <= |d| <= 500 && forall k :: 0 <= k < |d| ==> d[k] != '\r' && d[k] != '\n' && d[k] != '\0'
  }

  function WipMessage(description: string, session: string): string {
    "wip: " + description + "\n\n" + FOOTER_PREFIX + session
  }

  // ---------------------------------------------------------------- proofs

  lemma FirstBreakIs(s: string, k: nat)
    requires k <= |s| && (k < |s| ==> IsBreak(s[k]))
    requires forall i :: 0 <= i < k ==> !IsBreak(s[i])
    ensures FirstBreak(s) == k
  {
  }

  lemma SplitAt(s: string, k: nat)
    requires k < |s| && IsBreak(s[k]) && s[k] != '\r' && forall i :: 0 <= i < k ==> !IsBreak(s[i])
    ensures SplitLines(s) == [s[..k]] + SplitLines(s[k + 1..])
  {
    hide IsBreak;
    hide FirstBreak;
    hide BreakWidth;
    FirstBreakIs(s, k);
    var w := BreakWidth(s, k);
    assert s != "" && k != |s| && s[k + w..] == s[k + 1..];
  }

  lemma OneLine(s: string)
    requires s != "" && FirstBreak(s) == |s|
    ensures SplitLines(s) == [s]
  {
  }

  lemma FootersOfCons(line: string, rest: seq<string>)
    ensures FooterLines([line] + rest) == (if StartsFooter(line) then [line] else []) + FooterLines(rest)
  {
    assert ([line] + rest)[1..] == rest;
  }

  /** Appending a blank line and one unbroken line adds only blank lines and that line. */
  lemma {:induction false} SplitAppended(body: string, last: string)
    requires StartsFooter(last) && FirstBreak(last) == |last|
    requires forall k :: 0 <= k < |body| ==> body[k] != '\r'
    ensures var lines := SplitLines(body + "\n\n" + last);
            && lines[|lines| - 1] == last
            && FooterLines(lines) == FooterLines(SplitLines(body)) + [last]
    decreases |body|
  {
    hide SplitLines;
    hide FooterLines;
    hide FirstBreak;
    hide StartsFooter;
    var s := body + "\n\n" + last;
    var k := FirstBreak(body);
    SplitAt(s, k);
    if k < |body| {
      var rest := body[k + 1..];
      SplitAppended(rest, last);
      assert s[k + 1..] == rest + "\n\n" + last;
      assert s[..k] == body[..k];
      SplitAt(body, k);
      FootersOfCons(body[..k], SplitLines(rest));
      FootersOfCons(body[..k], SplitLines(rest + "\n\n" + last));
    } else {
      assert s[k + 1..] == "\n" + last && s[..k] == body;
      AppendedLine(body, last);
    }
  }

  lemma AppendedLine(body: string, last: string)
    requires StartsFooter(last) && FirstBreak(last) == |last| && FirstBreak(body) == |body|
    ensures var lines := [body] + SplitLines("\n" + last);
            lines[|lines| - 1] == last && FooterLines(lines) == FooterLines(SplitLines(body)) + [last]
  {
    hide SplitLines;
    SplitAt("\n" + last, 0);
    assert ("\n" + last)[1..] == last;
    OneLine(last);
    assert [last] == [last] + [];
    FootersOfCons(last, []);
    FootersOfCons("", [last]);
    FootersOfCons(body, [""] + [last]);
    if body != "" {
      OneLine(body);
      assert [body] == [body] + [];
      FootersOfCons(body, []);
    }
  }

  /** The footer is on the last line only: no line after the first of the description opens like a
      footer. The first is shielded by the message's own prefix. */
  predicate Unambiguous(description: string) {
    description != "" ==> FooterLines(SplitLines(description)[1..]) == []
  }

  lemma NotAFooter(line: string)
    requires line == "" || line[0] != FOOTER_PREFIX[0]
    ensures !StartsFooter(line)
  {
  }

  lemma FirstLineShielded(prefix: string, d: string)
    requires prefix != "" && prefix[0] != FOOTER_PREFIX[0] && FirstBreak(prefix) == |prefix|
    requires d != "" && forall k :: 0 <= k < |d| ==> d[k] != '\r'
    ensures FooterLines(SplitLines(prefix + d)) == FooterLines(SplitLines(d)[1..])
  {
    hide *;
    var k := FirstBreak(d);
    if k < |d| {
      PrefixedBreak(prefix, d, k);
    } else {
      PrefixedLine(prefix, d);
    }
  }

  lemma PrefixedBreak(prefix: string, d: string, k: nat)
    requires prefix != "" && prefix[0] != FOOTER_PREFIX[0] && FirstBreak(prefix) == |prefix|
    requires k < |d| && FirstBreak(d) == k && d[k] != '\r'
    ensures FooterLines(SplitLines(prefix + d)) == FooterLines(SplitLines(d)[1..])
  {
    hide SplitLines;
    hide FooterLines;
    hide FirstBreak;
    hide StartsFooter;
    hide IsBreak;
    var s := prefix + d;
    SplitAt(d, k);
    SplitAt(s, |prefix| + k);
    assert s[|prefix| + k + 1..] == d[k + 1..];
    var line := s[..|prefix| + k];
    assert line[0] == prefix[0];
    NotAFooter(line);
    FootersOfCons(line, SplitLines(d[k + 1..]));
    assert SplitLines(d)[1..] == SplitLines(d[k + 1..]);
  }

  lemma PrefixedLine(prefix: string, d: string)
    requires prefix != "" && prefix[0] != FOOTER_PREFIX[0] && FirstBreak(prefix) == |prefix|
    requires d != "" && FirstBreak(d) == |d|
    ensures FooterLines(SplitLines(prefix + d)) == FooterLines(SplitLines(d)[1..])
  {
    hide SplitLines;
    hide FirstBreak;
    hide StartsFooter;
    hide IsBreak;
    var s := prefix + d;
    FirstBreakIs(s, |s|);
    OneLine(d);
    OneLine(s);
    assert s[0] == prefix[0];
    NotAFooter(s);
    FootersOfCons(s, []);
    assert [s] == [s] + [];
  }

  /** A WIP commit's session is read back exactly when the description is unambiguous; otherwise no
      session is read at all, never another one. */
  lemma FooterReadBack(description: string, session: string)
    requires ValidDescription(description) && ValidRequestId(session)
    ensures ParseFooter(WipMessage(description, session))
         == if Unambiguous(description) then Some(session) else None
  {
    hide *;
    var message, last := WipMessage(description, session), FOOTER_PREFIX + session;
    MessageShape(description, session);
    SplitAppended("wip: " + description, last);
    FirstLineShielded("wip: ", description);
    ParsedMessage(description, message, session);
  }

  lemma MessageShape(description: string, session: string)
    requires ValidDescription(description) && ValidRequestId(session)
    ensures var message, last := WipMessage(description, session), FOOTER_PREFIX + session;
            && message == "wip: " + description + "\n\n" + last
            && TrimEnd(message) == message
            && StartsFooter(last) && FirstBreak(last) == |last|
            && FirstBreak("wip: ") == 5 && "wip: "[0] != FOOTER_PREFIX[0]
            && description != ""
            && (forall k :: 0 <= k < |description| ==> description[k] != '\r')
            && (forall k :: 0 <= k < |"wip: " + description| ==> ("wip: " + description)[k] != '\r')
  {
    var message, last := WipMessage(description, session), FOOTER_PREFIX + session;
    assert message == "wip: " + description + "\n\n" + last;
    assert message[|message| - 1] == session[|session| - 1];
    FirstBreakIs(last, |last|);
    FirstBreakIs("wip: ", 5);
  }

  lemma ParsedMessage(description: string, message: string, session: string)
    requires description != "" && ValidRequestId(session) && TrimEnd(message) == message && message != ""
    requires var lines := SplitLines(message);
             && lines[|lines| - 1] == FOOTER_PREFIX + session
             && FooterLines(lines) == FooterLines(SplitLines(description)[1..]) + [FOOTER_PREFIX + session]
    ensures ParseFooter(message) == if Unambiguous(description) then Some(session) else None
  {
    hide SplitLines;
    hide FooterLines;
    hide TrimEnd;
    hide ValidRequestId;
    assert (FOOTER_PREFIX + session)[|FOOTER_PREFIX|..] == session;
  }

  /** For any message: a session is read exactly when the last line is its footer and no other line opens
      like one. */
  lemma FooterIsLastLine(message: string, session: string)
    ensures ParseFooter(message) == Some(session) <==>
              && ValidRequestId(session)
              && var lines := SplitLines(TrimEnd(message));
              && lines != [] && lines[|lines| - 1] == FOOTER_PREFIX + session
              && forall k :: 0 <= k < |lines| - 1 ==> !(FOOTER_PREFIX <= lines[k])
  {
    hide SplitLines;
    hide TrimEnd;
    hide FooterLines;
    hide ValidRequestId;
    var lines := SplitLines(TrimEnd(message));
    if lines == [] {
      NoFooters([]);
    } else {
      var last := lines[|lines| - 1];
      FootersOfLast(lines);
      NoFooters(lines[..|lines| - 1]);
      if last == FOOTER_PREFIX + session { assert last[|FOOTER_PREFIX|..] == session; }
      if StartsFooter(last) { assert last == FOOTER_PREFIX + last[|FOOTER_PREFIX|..]; }
    }
  }

  lemma {:induction false} NoFooters(lines: seq<string>)
    ensures FooterLines(lines) == [] <==> forall k :: 0 <= k < |lines| ==> !StartsFooter(lines[k])
  {
    if lines != [] {
      NoFooters(lines[1..]);
      assert forall k :: 1 <= k < |lines| ==> lines[k] == lines[1..][k - 1];
    }
  }

  lemma {:induction false} FootersOfLast(lines: seq<string>)
    requires lines != []
    ensures var last := lines[|lines| - 1];
            FooterLines(lines) == FooterLines(lines[..|lines| - 1]) + if StartsFooter(last) then [last] else []
  {
    if |lines| > 1 {
      FootersOfLast(lines[1..]);
      assert lines[1..][..|lines| - 2] == lines[..|lines| - 1][1..];
    }
  }

  /** The message of a commit by a session: the description, a blank line, the session. */
  lemma MessageLines(description: string, session: string)
    requires ValidDescription(description) && FirstBreak(description) == |description| && ValidRequestId(session)
    ensures SplitLines(WipMessage(description, session))
         == ["wip: " + description, "", "Codemcp-Remote-Session: " + session]
  {
    hide *;
    var line, last := "wip: " + description, FOOTER_PREFIX + session;
    PrefixText();
    MessageShape(description, session);
    PrefixedUnbroken("wip: ", description);
    SplitTwice(line, last);
  }

  lemma PrefixText()
    ensures FOOTER_PREFIX == "Codemcp-Remote-Session: "
  {
  }

  lemma PrefixedUnbroken(prefix: string, d: string)
    requires FirstBreak(prefix) == |prefix| && FirstBreak(d) == |d|
    ensures FirstBreak(prefix + d) == |prefix + d|
  {
    hide FirstBreak;
    hide IsBreak;
    FirstBreakIs(prefix + d, |prefix + d|);
  }

  lemma SplitTwice(line: string, last: string)
    requires FirstBreak(line) == |line| && FirstBreak(last) == |last| && last != ""
    ensures SplitLines(line + "\n\n" + last) == [line, "", last]
  {
    hide SplitLines;
    hide FirstBreak;
    var s := line + "\n\n" + last;
    SplitAt(s, |line|);
    assert s[|line| + 1..] == "\n" + last && s[..|line|] == line;
    SplitAt("\n" + last, 0);
    assert ("\n" + last)[1..] == last;
    OneLine(last);
  }

  /** In particular a description without any line break is read back. */
  lemma PlainDescriptionsUnambiguous(description: string)
    requires description != "" && FirstBreak(description) == |description|
    ensures Unambiguous(description)
  {
    assert SplitLines(description)[1..] == [];
  }

  /** A description that the source accepts although its footer cannot be read back. */
  lemma AmbiguousDescription() returns (description: string)
    ensures ValidDescription(description) && !Unambiguous(description)
  {
    hide *;
    description := "a" + ("\U{0B}" + FOOTER_PREFIX);
    PrefixUnbroken(FOOTER_PREFIX);
    AcceptedDescription(FOOTER_PREFIX, description);
    SecondLineAmbiguous(description);
  }

  lemma PrefixUnbroken(line: string)
    requires line == FOOTER_PREFIX
    ensures FirstBreak(line) == |line| && StartsFooter(line)
  {
    hide FirstBreak;
    FirstBreakIs(line, |line|);
  }

  lemma AcceptedDescription(line: string, description: string)
    requires line == FOOTER_PREFIX && description == "a" + ("\U{0B}" + line)
    ensures ValidDescription(description)
  {
    assert forall k :: 0 <= k < |line| ==> line[k] != '\r' && line[k] != '\n' && line[k] != '\0';
  }

  lemma SecondLineAmbiguous(description: string)
    requires description == "a" + ("\U{0B}" + FOOTER_PREFIX)
    requires StartsFooter(FOOTER_PREFIX) && FirstBreak(FOOTER_PREFIX) == |FOOTER_PREFIX|
    ensures !Unambiguous(description)
  {
    hide SplitLines;
    hide FirstBreak;
    hide FooterLines;
    hide StartsFooter;
    SplitAt(description, 1);
    assert description[2..] == FOOTER_PREFIX;
    OneLine(FOOTER_PREFIX);
    assert SplitLines(description)[1..] == [FOOTER_PREFIX];
    FootersOfCons(FOOTER_PREFIX, []);
    assert [FOOTER_PREFIX] == [FOOTER_PREFIX] + [];
  }
}
