/** `safe_directory_tree` of `project_registry.py`: a bounded walk with an explicit stack. */
module DirectoryTree {
  import opened Basics
  import opened FileTree
  import opened PathPolicy

  datatype TreeError = InvalidBound | NotListable

  /** An entry waiting on the stack, at its path relative to the target. */
  datatype Pending = Pending(path: Path, entry: Entry)

  datatype Line = Line(path: Path, isDirectory: bool)

  /** Shown: not hidden, not linked, not sensitive, and a regular file or a directory. `root` is the
      target's own path in the project. */
  predicate Shown(root: Path, p: Pending) {
    && !("." <= p.entry.name) && p.entry.name != "__pycache__"
    && !p.entry.Link? && !IsSensitive(root + p.path)
    && (p.entry.Directory? || p.entry.File?)
  }

  function Children(p: Pending): (r: seq<Pending>)
    requires p.entry.Directory?
    ensures Weight(r) < Size(p.entry)
  {
    var es := if p.entry.readable then Sorted(p.entry.children, true) else [];
    PlacedWeight(p.path, es);
    Placed(p.path, es)
  }

  function Placed(at: Path, es: seq<Entry>): seq<Pending> {
    seq(|es|, i requires 0 <= i < |es| => Pending(at + [es[i].name], es[i]))
  }

  /** The nodes still on the stack. */
  function Weight(stack: seq<Pending>): nat {
    if stack == [] then 0 else Weight(stack[..|stack| - 1]) + Size(stack[|stack| - 1].entry)
  }

  lemma {:induction false} PlacedWeight(at: Path, es: seq<Entry>)
    ensures Weight(Placed(at, es)) == Total(es)
  {
    if es != [] {
      var prefix, last := es[..|es| - 1], es[|es| - 1];
      PlacedWeight(at, prefix);
      assert Placed(at, es)[..|es| - 1] == Placed(at, prefix);
      TotalAppend(prefix, [last]);
      assert es == prefix + [last];
    }
  }

  lemma {:induction false} WeightAppend(a: seq<Pending>, b: seq<Pending>)
    ensures Weight(a + b) == Weight(a) + Weight(b)
  {
    if b == [] {
      assert a + b == a;
    } else {
      WeightAppend(a, b[..|b| - 1]);
      assert (a + b)[..|a + b| - 1] == a + b[..|b| - 1];
    }
  }

  function Reverse(s: seq<Pending>): (r: seq<Pending>)
    ensures |r| == |s|
  {
    if s == [] then [] else Reverse(s[1..]) + [s[0]]
  }

  /** The recursive pre-order: each shown entry, then what is below it, children in ascending order. */
  function PreOrder(root: Path, p: Pending): seq<Line>
    decreases Size(p.entry), 0, 0
  {
    if !Shown(root, p) then []
    else
      [Line(p.path, p.entry.Directory?)]
      + (if p.entry.Directory? then
           ReverseWeight(Children(p));
           PreOrderAll(root, Reverse(Children(p)))
         else [])
  }

  function PreOrderAll(root: Path, ps: seq<Pending>): seq<Line>
    decreases Weight(ps), 1, |ps|
  {
    if ps == [] then []
    else
      FirstOfWeight(ps);
      PreOrder(root, ps[0]) + PreOrderAll(root, ps[1..])
  }

  lemma FirstOfWeight(ps: seq<Pending>)
    requires ps != []
    ensures Weight(ps) == Size(ps[0].entry) + Weight(ps[1..])
  {
    assert ps == [ps[0]] + ps[1..];
    WeightAppend([ps[0]], ps[1..]);
    assert [ps[0]][..0] == [];
  }

  lemma PopWeight(stack: seq<Pending>)
    requires stack != []
    ensures Weight(stack) == Weight(stack[..|stack| - 1]) + Size(stack[|stack| - 1].entry)
  {
  }

  lemma WeightOne(p: Pending)
    ensures Weight([p]) == Size(p.entry)
  {
    assert [p][..0] == [];
  }

  lemma {:induction false} ReverseWeight(s: seq<Pending>)
    ensures Weight(Reverse(s)) == Weight(s)
  {
    hide Size;
    hide Weight;
    if s != [] {
      ReverseWeight(s[1..]);
      WeightAppend(Reverse(s[1..]), [s[0]]);
      FirstOfWeight(s);
      WeightOne(s[0]);
    }
  }

  /** Popping a stack visits it from its top. */
  lemma {:induction false} PreOrderAppend(root: Path, a: seq<Pending>, b: seq<Pending>)
    ensures PreOrderAll(root, a + b) == PreOrderAll(root, a) + PreOrderAll(root, b)
  {
    hide PreOrder;
    if a == [] {
      assert a + b == b;
    } else {
      PreOrderAppend(root, a[1..], b);
      assert (a + b)[1..] == a[1..] + b;
    }
  }

  lemma {:induction false} ReverseAppend(a: seq<Pending>, b: seq<Pending>)
    ensures Reverse(a + b) == Reverse(b) + Reverse(a)
  {
    if a == [] {
      assert a + b == b;
    } else {
      ReverseAppend(a[1..], b);
      assert (a + b)[1..] == a[1..] + b;
    }
  }

  /** What a stack still has to show, top first. */
  function Remaining(root: Path, stack: seq<Pending>): seq<Line> {
    PreOrderAll(root, Reverse(stack))
  }

  /** Popping one entry shows it and puts its children in its place. */
  lemma PopStep(root: Path, stack: seq<Pending>)
    requires stack != []
    ensures var rest, p := stack[..|stack| - 1], stack[|stack| - 1];
            Remaining(root, stack)
            == if !Shown(root, p) then Remaining(root, rest)
               else [Line(p.path, p.entry.Directory?)]
                    + Remaining(root, rest + if p.entry.Directory? then Children(p) else [])
  {
    hide Shown;
    hide Children;
    var rest, p := stack[..|stack| - 1], stack[|stack| - 1];
    assert stack == rest + [p];
    ReverseAppend(rest, [p]);
    assert [p][1..] == [] && Reverse([p]) == [p];
    assert ([p] + Reverse(rest))[1..] == Reverse(rest);
    assert Remaining(root, stack) == PreOrder(root, p) + Remaining(root, rest);
    if p.entry.Directory? {
      ReverseAppend(rest, Children(p));
      PreOrderAppend(root, Reverse(Children(p)), Reverse(rest));
    } else {
      assert rest + [] == rest;
    }
  }

  /** The bounded walk returns the first `maxEntries` lines of the recursive pre-order, and says that it
      stopped early exactly when there are more. */
  method SafeDirectoryTree(root: Path, target: Entry, maxEntries: int)
    returns (r: Result<(seq<Line>, bool), TreeError>)
    requires target.Directory?
    ensures r == Err(InvalidBound) <==> maxEntries <= 0
    ensures r == Err(NotListable) <==> maxEntries > 0 && !target.readable
    ensures r.Ok? ==>
              var all := PreOrderAll(root, Reverse(Children(Pending([], target))));
              r.value == (if |all| <= maxEntries then (all, false) else (all[..maxEntries], true))
  {
    if maxEntries <= 0 { return Err(InvalidBound); }
    if !target.readable { return Err(NotListable); }
    hide Shown;
    hide Children;
    hide PreOrderAll;
    hide Reverse;
    hide Remaining;
    hide Weight;
    EmptyStack(root, Children(Pending([], target)));
    var stack := Children(Pending([], target));
    ghost var all := Remaining(root, stack);
    var entries: seq<Line> := [];
    while stack != []
      invariant entries + Remaining(root, stack) == all
      invariant |entries| <= maxEntries
      decreases Weight(stack)
    {
      PopStep(root, stack);
      PopWeight(stack);
      var p := stack[|stack| - 1];
      stack := stack[..|stack| - 1];
      if !Shown(root, p) { continue; }
      ghost var line := Line(p.path, p.entry.Directory?);
      ghost var below := Remaining(root, stack + if p.entry.Directory? then Children(p) else []);
      Shift(entries, line, below, all);
      if |entries| >= maxEntries { return Ok((entries, true)); }
      ghost var rest := stack;
      entries := entries + [Line(p.path, p.entry.Directory?)];
      if !p.entry.Directory? {
        assert rest + [] == rest;
        continue;
      }
      WeightAppend(stack, Children(p));
      stack := stack + Children(p);
    }
    assert all == entries + [] == entries;
    return Ok((entries, false));
  }

  lemma Shift(entries: seq<Line>, line: Line, below: seq<Line>, all: seq<Line>)
    requires entries + ([line] + below) == all
    ensures (entries + [line]) + below == all && |all| > |entries| && all[..|entries|] == entries
  {
  }

  lemma EmptyStack(root: Path, stack: seq<Pending>)
    ensures Remaining(root, []) == [] && Remaining(root, stack) == PreOrderAll(root, Reverse(stack))
  {
  }

  /** The pre-order takes children in ascending order of their lower-case names. */
  lemma ChildrenAscend(p: Pending, i: nat, j: nat)
    requires p.entry.Directory? && i < j < |Children(p)|
    ensures InOrder(Reverse(Children(p))[i].entry, Reverse(Children(p))[j].entry, false)
  {
    var children := Children(p);
    ReverseAt(children, i);
    ReverseAt(children, j);
    if p.entry.readable {
      SortedIsSorted(p.entry.children, true);
      assert InOrder(children[|children| - 1 - j].entry, children[|children| - 1 - i].entry, true);
    }
  }

  lemma {:induction false} ReverseAt(s: seq<Pending>, k: nat)
    requires k < |s|
    ensures Reverse(s)[k] == s[|s| - 1 - k]
  {
    if k < |s| - 1 { ReverseAt(s[1..], k); }
  }
}
