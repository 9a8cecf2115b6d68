/** `safe_search_paths` of `project_registry.py`: the largest search roots under a target that a
    recursive search can be given without reaching anything excluded. */
module SearchRoots {
  import opened Basics
  import opened FileTree
  import opened PathPolicy

  /** An entry at a project-relative path. */
  datatype Item = Item(path: Path, entry: Entry)

  predicate IsGitMetadata(e: Entry) {
    Lower(e.name) == ".git"
  }

  /** Skipped by the walk itself: linked, or at a sensitive path. */
  predicate Forbidden(path: Path, e: Entry) {
    e.Link? || IsSensitive(path)
  }

  // ---------------------------------------------------------------- the plain filter

  /** Everything a recursive search of the root can meet, Git's own metadata aside. */
  function Everything(path: Path, e: Entry): seq<Item>
    decreases Size(e), 0
  {
    match e
    case Directory(_, true, children) => EverythingIn(path, Sorted(children, false))
    case _ => [Item(path, e)]
  }

  function EverythingIn(at: Path, es: seq<Entry>): seq<Item>
    decreases Total(es), 1
  {
    if es == [] then []
    else
      LastOfTotal(es);
      var last := es[|es| - 1];
      EverythingIn(at, es[..|es| - 1]) + if IsGitMetadata(last) then [] else Everything(at + [last.name], last)
  }

  /** The readable regular files with no linked or sensitive component below the root. */
  function Visible(path: Path, e: Entry): seq<Item>
    decreases Size(e), 0
  {
    match e
    case Directory(_, true, children) => VisibleIn(path, Sorted(children, false))
    case File(_) => [Item(path, e)]
    case _ => []
  }

  function VisibleIn(at: Path, es: seq<Entry>): seq<Item>
    decreases Total(es), 1
  {
    if es == [] then []
    else
      LastOfTotal(es);
      var last := es[|es| - 1];
      VisibleIn(at, es[..|es| - 1])
      + if IsGitMetadata(last) || Forbidden(at + [last.name], last) then [] else Visible(at + [last.name], last)
  }

  /** Nothing below the root is excluded: no link, no sensitive path, no special or unreadable entry. */
  predicate NothingExcluded(path: Path, e: Entry)
    decreases Size(e), 0
  {
    match e
    case Directory(_, readable, children) => readable && NothingExcludedIn(path, Sorted(children, false))
    case File(_) => true
    case _ => false
  }

  predicate NothingExcludedIn(at: Path, es: seq<Entry>)
    decreases Total(es), 1
  {
    es == []
    || (LastOfTotal(es);
        var last := es[|es| - 1];
        && NothingExcludedIn(at, es[..|es| - 1])
        && (IsGitMetadata(last)
            || (!Forbidden(at + [last.name], last) && NothingExcluded(at + [last.name], last))))
  }

  /** Everything a search of all the roots meets, in the order of the roots. */
  function Covered(roots: seq<Item>): seq<Item> {
    if roots == [] then []
    else Covered(roots[..|roots| - 1]) + Everything(roots[|roots| - 1].path, roots[|roots| - 1].entry)
  }

  lemma LastOfTotal(es: seq<Entry>)
    requires es != []
    ensures Total(es) == Total(es[..|es| - 1]) + Size(es[|es| - 1])
  {
    assert es == es[..|es| - 1] + [es[|es| - 1]];
    TotalAppend(es[..|es| - 1], [es[|es| - 1]]);
  }

  lemma {:induction false} CoveredAppend(a: seq<Item>, b: seq<Item>)
    ensures Covered(a + b) == Covered(a) + Covered(b)
  {
    hide Everything;
    if b == [] {
      assert a + b == a;
    } else {
      var prefix, last := b[..|b| - 1], b[|b| - 1];
      var more := Everything(last.path, last.entry);
      CoveredAppend(a, prefix);
      assert (a + b)[..|a + b| - 1] == a + prefix;
      assert Covered(a + b) == Covered(a + prefix) + more;
      assert Covered(a) + (Covered(prefix) + more) == Covered(a) + Covered(prefix) + more;
    }
  }

  lemma CoveredOne(root: Item)
    ensures Covered([root]) == Everything(root.path, root.entry)
  {
    assert [root][..0] == [];
  }

  /** Where nothing is excluded the filter keeps everything. */
  lemma {:induction false} CleanSeesAll(path: Path, e: Entry)
    requires NothingExcluded(path, e)
    ensures Visible(path, e) == Everything(path, e)
    decreases Size(e), 0
  {
    if e.Directory? { CleanSeesAllIn(path, Sorted(e.children, false)); }
  }

  lemma {:induction false} CleanSeesAllIn(at: Path, es: seq<Entry>)
    requires NothingExcludedIn(at, es)
    ensures VisibleIn(at, es) == EverythingIn(at, es)
    decreases Total(es), 1
  {
    if es != [] {
      LastOfTotal(es);
      var last := es[|es| - 1];
      CleanSeesAllIn(at, es[..|es| - 1]);
      if !IsGitMetadata(last) { CleanSeesAll(at + [last.name], last); }
    }
  }

  // ---------------------------------------------------------------- the algorithm

  /** The recursive computation: roots, and whether anything was excluded. */
  method SafeRoots(path: Path, e: Entry) returns (roots: seq<Item>, excluded: bool)
    requires e.Directory?
    ensures excluded <==> !NothingExcluded(path, e)
    ensures !excluded ==> roots == [Item(path, e)]
    ensures Covered(roots) == Visible(path, e)
    ensures excluded ==> forall k :: 0 <= k < |roots| ==> |roots[k].path| > |path|
    decreases Size(e)
  {
    hide VisibleIn;
    hide NothingExcludedIn;
    hide EverythingIn;
    hide Covered;
    hide Forbidden;
    hide IsGitMetadata;
    if !e.readable {
      NothingYet(path);
      return [], true;
    }
    NothingYet(path);
    var entries := Sorted(e.children, false);
    var safe: seq<Item> := [];
    excluded := false;
    for i := 0 to |entries|
      invariant excluded <==> !NothingExcludedIn(path, entries[..i])
      invariant Covered(safe) == VisibleIn(path, entries[..i])
      invariant forall k :: 0 <= k < |safe| ==> |safe[k].path| > |path|
    {
      var entry, below := entries[i], path + [entries[i].name];
      OneMore(path, entries, i);
      if IsGitMetadata(entry) { continue; }
      if Forbidden(below, entry) {
        excluded := true;
        continue;
      }
      if entry.Directory? {
        TotalOfPrefix(entries, i);
        var inner, innerExcluded := SafeRoots(below, entry);
        CoveredAppend(safe, inner);
        safe := safe + inner;
        excluded := excluded || innerExcluded;
      } else if entry.File? {
        CoveredAppend(safe, [Item(below, entry)]);
        CoveredOne(Item(below, entry));
        safe := safe + [Item(below, entry)];
      } else {
        excluded := true;
      }
    }
    assert entries[..|entries|] == entries;
    if !excluded {
      CoveredOne(Item(path, e));
      CleanSeesAll(path, e);
      return [Item(path, e)], false;
    }
    return safe, true;
  }

  lemma NothingYet(at: Path)
    ensures Covered([]) == [] && VisibleIn(at, []) == [] && NothingExcludedIn(at, [])
  {
  }

  lemma OneMore(at: Path, es: seq<Entry>, i: nat)
    requires i < |es|
    ensures var last := es[i];
            && VisibleIn(at, es[..i + 1])
               == VisibleIn(at, es[..i])
                  + (if IsGitMetadata(last) || Forbidden(at + [last.name], last) then []
                     else Visible(at + [last.name], last))
            && (NothingExcludedIn(at, es[..i + 1]) <==>
                  && NothingExcludedIn(at, es[..i])
                  && (IsGitMetadata(last)
                      || (!Forbidden(at + [last.name], last) && NothingExcluded(at + [last.name], last))))
  {
    hide IsGitMetadata;
    hide Forbidden;
    hide Visible;
    hide NothingExcluded;
    assert es[..i + 1][..i] == es[..i];
  }

  lemma TotalOfPrefix(es: seq<Entry>, i: nat)
    requires i < |es|
    ensures Size(es[i]) <= Total(es)
  {
    assert es == es[..i] + ([es[i]] + es[i + 1..]);
    TotalAppend(es[..i], [es[i]] + es[i + 1..]);
    TotalAppend([es[i]], es[i + 1..]);
  }

  /** The search roots of a target. A target that is no directory is its own root; otherwise searching
      the roots meets exactly the visible files, in order, and the target stays whole exactly when
      nothing below it is excluded. */
  method SafeSearchPaths(path: Path, e: Entry) returns (roots: seq<Item>)
    ensures !e.Directory? ==> roots == [Item(path, e)]
    ensures e.Directory? ==> Covered(roots) == Visible(path, e)
    ensures e.Directory? && !IsSensitive(path) ==> Covered(roots) == SafeFiles(Everything(path, e))
    ensures e.Directory? ==> (roots == [Item(path, e)] <==> NothingExcluded(path, e))
  {
    if !e.Directory? { return [Item(path, e)]; }
    var paths, excluded := SafeRoots(path, e);
    if !IsSensitive(path) { VisibleIsFilter(path, e); }
    assert excluded && |paths| == 1 ==> |paths[0].path| > |path|;
    return if excluded then paths else [Item(path, e)];
  }

  // ---------------------------------------------------------------- what is visible

  /** Nothing visible is linked, sensitive or anything but a regular file. */
  lemma {:induction false} VisibleIsSafe(path: Path, e: Entry)
    requires !IsSensitive(path)
    ensures forall k :: 0 <= k < |Visible(path, e)| ==>
              Visible(path, e)[k].entry.File? && !IsSensitive(Visible(path, e)[k].path)
              && path <= Visible(path, e)[k].path
    decreases Size(e), 0
  {
    if e.Directory? && e.readable { VisibleInIsSafe(path, Sorted(e.children, false)); }
  }

  /** The path lies at or below one of the entries of a directory. */
  ghost predicate BelowSome(at: Path, es: seq<Entry>, path: Path) {
    exists c :: c in es && at + [c.name] <= path
  }

  predicate IsSafeFile(item: Item) {
    item.entry.File? && !IsSensitive(item.path)
  }

  lemma {:induction false} VisibleInIsSafe(at: Path, es: seq<Entry>)
    ensures forall k :: 0 <= k < |VisibleIn(at, es)| ==>
              IsSafeFile(VisibleIn(at, es)[k]) && BelowSome(at, es, VisibleIn(at, es)[k].path)
    decreases Total(es), 1
  {
    hide IsSensitive;
    hide BelowSome;
    if es != [] {
      LastOfTotal(es);
      var last, prefix := es[|es| - 1], es[..|es| - 1];
      VisibleInIsSafe(at, prefix);
      if !IsGitMetadata(last) && !Forbidden(at + [last.name], last) { VisibleIsSafe(at + [last.name], last); }
      var all, first := VisibleIn(at, es), VisibleIn(at, prefix);
      forall k | 0 <= k < |all| ensures IsSafeFile(all[k]) && BelowSome(at, es, all[k].path) {
        if k < |first| {
          assert all[k] == first[k];
          BelowPrefix(at, es, all[k].path);
        } else {
          assert all[k] == Visible(at + [last.name], last)[k - |first|];
          BelowLast(at, es, all[k].path);
        }
      }
    }
  }

  lemma SomeEntry(at: Path, es: seq<Entry>, path: Path) returns (c: Entry)
    requires BelowSome(at, es, path)
    ensures c in es && at + [c.name] <= path
  {
    c :| c in es && at + [c.name] <= path;
  }

  lemma BelowPrefix(at: Path, es: seq<Entry>, path: Path)
    requires es != [] && BelowSome(at, es[..|es| - 1], path)
    ensures BelowSome(at, es, path)
  {
  }

  lemma BelowLast(at: Path, es: seq<Entry>, path: Path)
    requires es != [] && at + [es[|es| - 1].name] <= path
    ensures BelowSome(at, es, path)
  {
    assert es[|es| - 1] in es;
  }

  /** No directory lists a name twice. */
  predicate DistinctNames(e: Entry)
    decreases Size(e), 0
  {
    e.Directory? ==>
      var es := Sorted(e.children, false);
      && (forall i, j :: 0 <= i < j < |es| ==> es[i].name != es[j].name)
      && DistinctNamesIn(es)
  }

  predicate DistinctNamesIn(es: seq<Entry>)
    decreases Total(es), 1
  {
    es == [] || (LastOfTotal(es); DistinctNamesIn(es[..|es| - 1]) && DistinctNames(es[|es| - 1]))
  }

  predicate DistinctPaths(items: seq<Item>) {
    forall i, j :: 0 <= i < j < |items| ==> items[i].path != items[j].path
  }

  /** No file is covered twice. */
  lemma {:induction false} CoveredOnce(path: Path, e: Entry)
    requires DistinctNames(e)
    ensures DistinctPaths(Visible(path, e))
    decreases Size(e), 0
  {
    if e.Directory? && e.readable { CoveredOnceIn(path, Sorted(e.children, false)); }
  }

  lemma {:induction false} CoveredOnceIn(at: Path, es: seq<Entry>)
    requires DistinctNamesIn(es) && forall i, j :: 0 <= i < j < |es| ==> es[i].name != es[j].name
    ensures DistinctPaths(VisibleIn(at, es))
    decreases Total(es), 1
  {
    hide IsSensitive;
    if es != [] {
      LastOfTotal(es);
      var last, prefix := es[|es| - 1], es[..|es| - 1];
      CoveredOnceIn(at, prefix);
      if !IsGitMetadata(last) && !Forbidden(at + [last.name], last) {
        CoveredOnce(at + [last.name], last);
        VisibleIsSafe(at + [last.name], last);
        VisibleInIsSafe(at, prefix);
        SidesDiffer(at, es, VisibleIn(at, prefix), Visible(at + [last.name], last));
      }
    }
  }

  lemma SidesDiffer(at: Path, es: seq<Entry>, a: seq<Item>, b: seq<Item>)
    requires es != [] && forall i, j :: 0 <= i < j < |es| ==> es[i].name != es[j].name
    requires forall k :: 0 <= k < |a| ==> BelowSome(at, es[..|es| - 1], a[k].path)
    requires forall k :: 0 <= k < |b| ==> at + [es[|es| - 1].name] <= b[k].path
    requires DistinctPaths(a) && DistinctPaths(b)
    ensures DistinctPaths(a + b)
  {
    hide BelowSome;
    forall i, j | 0 <= i < |a| && 0 <= j < |b| ensures a[i].path != b[j].path {
      var c := SomeEntry(at, es[..|es| - 1], a[i].path);
      assert a[i].path[|at|] == c.name && b[j].path[|at|] == es[|es| - 1].name;
    }
    forall i, j | 0 <= i < j < |a + b| ensures (a + b)[i].path != (a + b)[j].path {
      if j < |a| { assert a[i].path != a[j].path; }
      else if i < |a| { assert a[i].path != b[j - |a|].path; }
      else { assert b[i - |a|].path != b[j - |a|].path; }
    }
  }

  // ---------------------------------------------------------------- the filter, spelled out

  /** The regular files at paths that are not sensitive. */
  function SafeFiles(items: seq<Item>): seq<Item> {
    if items == [] then []
    else
      var last := items[|items| - 1];
      SafeFiles(items[..|items| - 1]) + if last.entry.File? && !IsSensitive(last.path) then [last] else []
  }

  lemma {:induction false} SafeFilesAppend(a: seq<Item>, b: seq<Item>)
    ensures SafeFiles(a + b) == SafeFiles(a) + SafeFiles(b)
  {
    hide IsSensitive;
    if b == [] {
      assert a + b == a;
    } else {
      var prefix, last := b[..|b| - 1], b[|b| - 1];
      SafeFilesAppend(a, prefix);
      assert (a + b)[..|a + b| - 1] == a + prefix;
    }
  }

  lemma SafeFilesOne(item: Item)
    ensures SafeFiles([item]) == if item.entry.File? && !IsSensitive(item.path) then [item] else []
  {
    assert [item][..0] == [];
  }

  /** Below a sensitive path everything is sensitive. */
  lemma {:induction false} NothingSafeBelow(path: Path, e: Entry)
    requires IsSensitive(path)
    ensures SafeFiles(Everything(path, e)) == []
    decreases Size(e), 0
  {
    hide IsSensitive;
    if e.Directory? && e.readable {
      NothingSafeIn(path, Sorted(e.children, false));
    } else {
      SafeFilesOne(Item(path, e));
    }
  }

  lemma {:induction false} NothingSafeIn(at: Path, es: seq<Entry>)
    requires IsSensitive(at)
    ensures SafeFiles(EverythingIn(at, es)) == []
    decreases Total(es), 1
  {
    hide IsSensitive;
    if es != [] {
      LastOfTotal(es);
      var last, prefix := es[|es| - 1], es[..|es| - 1];
      NothingSafeIn(at, prefix);
      if !IsGitMetadata(last) {
        SensitiveStep(at, last.name);
        NothingSafeBelow(at + [last.name], last);
        SafeFilesAppend(EverythingIn(at, prefix), Everything(at + [last.name], last));
      } else {
        assert EverythingIn(at, es) == EverythingIn(at, prefix);
      }
    }
  }

  /** The visible files are everything, filtered: no link is ever followed, and a regular file stays
      exactly when no component of its path is sensitive. */
  lemma {:induction false} VisibleIsFilter(path: Path, e: Entry)
    requires !IsSensitive(path)
    ensures Visible(path, e) == SafeFiles(Everything(path, e))
    decreases Size(e), 0
  {
    hide IsSensitive;
    if e.Directory? && e.readable {
      VisibleInIsFilter(path, Sorted(e.children, false));
    } else {
      SafeFilesOne(Item(path, e));
    }
  }

  lemma {:induction false} VisibleInIsFilter(at: Path, es: seq<Entry>)
    requires !IsSensitive(at)
    ensures VisibleIn(at, es) == SafeFiles(EverythingIn(at, es))
    decreases Total(es), 1
  {
    hide IsSensitive;
    if es != [] {
      LastOfTotal(es);
      var last, prefix := es[|es| - 1], es[..|es| - 1];
      VisibleInIsFilter(at, prefix);
      if !IsGitMetadata(last) {
        var below := at + [last.name];
        SafeFilesAppend(EverythingIn(at, prefix), Everything(below, last));
        if IsSensitive(below) {
          NothingSafeBelow(below, last);
        } else if last.Link? {
          SafeFilesOne(Item(below, last));
        } else {
          VisibleIsFilter(below, last);
        }
      } else {
        assert EverythingIn(at, es) == EverythingIn(at, prefix);
      }
    }
  }
}
