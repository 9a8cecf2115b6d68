/** The parser of `git status --porcelain=v1 -z` in `git_guard.py`. */
module Porcelain {
  import opened Basics

  const NUL: char := '\0'

  /** One status record; a rename or a copy also names its original path. */
  datatype Record = Record(code: string, path: string, original: Option<string>)

  predicate TwoPaths(code: string) {
    'R' in code || 'C' in code
  }

  predicate ValidRecord(r: Record) {
    && |r.code| == 2 && NUL !in r.code
    && r.path != "" && NUL !in r.path
    && (r.original.Some? <==> TwoPaths(r.code))
    && (r.original.Some? ==> r.original.value != "" && NUL !in r.original.value)
  }

  function PrintRecord(r: Record): string {
    r.code + " " + r.path + [NUL] + if r.original.Some? then r.original.value + [NUL] else ""
  }

  function Print(rs: seq<Record>): string {
    if rs == [] then "" else PrintRecord(rs[0]) + Print(rs[1..])
  }

  /** Python's `split` at every NUL. */
  function Split(s: string): (parts: seq<string>)
    ensures parts != []
  {
    if s == "" then [""]
    else
      var rest := Split(s[1..]);
      if s[0] == NUL then [""] + rest else [[s[0]] + rest[0]] + rest[1..]
  }

  /** The paths, each original path after its new path. */
  function Paths(rs: seq<Record>): seq<string> {
    if rs == [] then []
    else [rs[0].path] + (if rs[0].original.Some? then [rs[0].original.value] else []) + Paths(rs[1..])
  }

  /** What the loop makes of the entries still to come. */
  function Parsed(entries: seq<string>): seq<string> {
    if entries == [] then []
    else if |entries[0]| < 3 then Parsed(entries[1..])
    else if TwoPaths(entries[0][..2]) then
      [entries[0][3..]]
      + (if |entries| > 1 then (if entries[1] != "" then [entries[1]] else []) + Parsed(entries[2..]) else [])
    else [entries[0][3..]] + Parsed(entries[1..])
  }

  /** What the loop makes of the entries from `index` on; the index may overshoot by one. */
  function From(entries: seq<string>, index: nat): seq<string> {
    if index < |entries| then Parsed(entries[index..]) else []
  }

  lemma FromStep(entries: seq<string>, index: nat)
    requires index < |entries|
    ensures var entry := entries[index];
            From(entries, index)
            == if |entry| < 3 then From(entries, index + 1)
               else if !TwoPaths(entry[..2]) then [entry[3..]] + From(entries, index + 1)
               else [entry[3..]]
                    + ((if index + 1 < |entries| && entries[index + 1] != "" then [entries[index + 1]] else [])
                       + From(entries, index + 2))
  {
    hide TwoPaths;
    var tail := entries[index..];
    assert tail[0] == entries[index] && tail[1..] == entries[index + 1..];
    assert Parsed([]) == [];
    if |tail| > 1 { assert tail[2..] == entries[index + 2..]; }
  }

  /** The index loop of `status`. */
  method ParseStatus(porcelain: string) returns (changed: seq<string>, dirty: bool)
    ensures changed == Parsed(Split(porcelain)) && (dirty <==> changed != [])
  {
    hide Parsed;
    hide Split;
    hide From;
    var entries := Split(porcelain);
    changed := [];
    var index := 0;
    WholeFrom(entries);
    while index < |entries|
      invariant 0 <= index <= |entries| + 1
      invariant changed + From(entries, index) == Parsed(entries)
      invariant index >= |entries| ==> From(entries, index) == []
    {
      FromStep(entries, index);
      PastEnd(entries, index);
      var entry := entries[index];
      if |entry| < 3 {
        index := index + 1;
        continue;
      }
      var code := entry[..2];
      changed := changed + [entry[3..]];
      if 'R' in code || 'C' in code {
        index := index + 1;
        if index < |entries| && entries[index] != "" {
          changed := changed + [entries[index]];
        }
      }
      index := index + 1;
    }
    assert changed + [] == changed;
    dirty := changed != [];
  }

  lemma WholeFrom(entries: seq<string>)
    ensures From(entries, 0) == Parsed(entries)
  {
    assert entries[0..] == entries;
  }

  lemma PastEnd(entries: seq<string>, index: nat)
    ensures index + 1 >= |entries| ==> From(entries, index + 1) == []
    ensures index + 2 >= |entries| ==> From(entries, index + 2) == []
  {
  }

  lemma {:induction false} SplitAfter(part: string, rest: string)
    requires NUL !in part
    ensures Split(part + [NUL] + rest) == [part] + Split(rest)
  {
    var s := part + [NUL] + rest;
    if part == "" {
      assert s[1..] == rest;
    } else {
      SplitAfter(part[1..], rest);
      assert s[1..] == part[1..] + [NUL] + rest;
      assert [part[0]] + part[1..] == part;
    }
  }

  /** Printing records and splitting them gives one entry per path, and an empty one at the end. */
  function Entries(rs: seq<Record>): seq<string> {
    if rs == [] then [""]
    else
      [rs[0].code + " " + rs[0].path] + (if rs[0].original.Some? then [rs[0].original.value] else []) + Entries(rs[1..])
  }

  lemma {:induction false} SplitPrinted(rs: seq<Record>)
    requires forall k :: 0 <= k < |rs| ==> ValidRecord(rs[k])
    ensures Split(Print(rs)) == Entries(rs)
  {
    hide Split;
    if rs == [] {
      assert Split("") == [""] by { SplitEmpty(); }
    } else {
      var r, rest := rs[0], Print(rs[1..]);
      SplitPrinted(rs[1..]);
      var head := r.code + " " + r.path;
      if r.original.Some? {
        SplitAfter(head, r.original.value + [NUL] + rest);
        SplitAfter(r.original.value, rest);
        assert Print(rs) == head + [NUL] + (r.original.value + [NUL] + rest);
      } else {
        SplitAfter(head, rest);
        assert Print(rs) == head + [NUL] + rest;
      }
    }
  }

  lemma SplitEmpty()
    ensures Split("") == [""]
  {
  }

  lemma {:induction false} ParsedEntries(rs: seq<Record>)
    requires forall k :: 0 <= k < |rs| ==> ValidRecord(rs[k])
    ensures Parsed(Entries(rs)) == Paths(rs)
  {
    if rs != [] {
      var r, rest := rs[0], Entries(rs[1..]);
      ParsedEntries(rs[1..]);
      var head := r.code + " " + r.path;
      assert head[..2] == r.code && head[3..] == r.path;
      if r.original.Some? {
        assert Entries(rs)[2..] == rest && Entries(rs)[1] == r.original.value;
      } else {
        assert Entries(rs)[1..] == rest;
      }
    }
  }

  /** Parsing what Git prints for any list of records gives exactly their paths, in order, each original
      path after its new path; the workspace is dirty exactly when there is a record. */
  lemma StatusRoundTrip(rs: seq<Record>)
    requires forall k :: 0 <= k < |rs| ==> ValidRecord(rs[k])
    ensures Parsed(Split(Print(rs))) == Paths(rs)
    ensures Parsed(Split(Print(rs))) != [] <==> rs != []
  {
    SplitPrinted(rs);
    ParsedEntries(rs);
  }
}
