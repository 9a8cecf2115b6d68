/** What the registry sees of a file system: a finite tree of entries, listed in sorted order. */
module FileTree {
  import opened Basics

  /** A directory's `children` come in the order the operating system lists them; `readable` is false
      where listing it fails. `Link` covers symbolic links and reparse points, `Special` everything
      that is neither a regular file nor a directory, or cannot be inspected. */
  datatype Entry =
    | File(name: string)
    | Directory(name: string, readable: bool, children: seq<Entry>)
    | Link(name: string)
    | Special(name: string)

  /** The nodes of a tree. */
  function Size(e: Entry): (n: nat)
    ensures n >= 1
  {
    match e
    case Directory(_, _, children) => 1 + Total(children)
    case _ => 1
  }

  function Total(es: seq<Entry>): nat {
    if es == [] then 0 else Size(es[0]) + Total(es[1..])
  }

  lemma {:induction false} TotalAppend(a: seq<Entry>, b: seq<Entry>)
    ensures Total(a + b) == Total(a) + Total(b)
  {
    if a == [] {
      assert a + b == b;
    } else {
      TotalAppend(a[1..], b);
      assert (a + b)[1..] == a[1..] + b;
    }
  }

  /** Strings compare by code point. */
  predicate Before(a: string, b: string) {
    b != "" && (a == "" || a[0] < b[0] || (a[0] == b[0] && Before(a[1..], b[1..])))
  }

  lemma {:induction false} BeforeTotal(a: string, b: string)
    ensures Before(a, b) || Before(b, a) || a == b
    ensures !(Before(a, b) && Before(b, a))
  {
    if a != "" && b != "" {
      BeforeTotal(a[1..], b[1..]);
      assert a == [a[0]] + a[1..] && b == [b[0]] + b[1..];
    }
  }

  lemma {:induction false} BeforeTransitive(a: string, b: string, c: string)
    requires !Before(b, a) && !Before(c, b)
    ensures !Before(c, a)
  {
    if a != "" && b != "" && c != "" {
      if a[0] == b[0] == c[0] { BeforeTransitive(a[1..], b[1..], c[1..]); }
    }
  }

  function Key(e: Entry): string {
    Lower(e.name)
  }

  /** `x` may stand in front of `y`. */
  predicate InOrder(x: Entry, y: Entry, descending: bool) {
    if descending then !Before(Key(x), Key(y)) else !Before(Key(y), Key(x))
  }

  function Insert(e: Entry, es: seq<Entry>, descending: bool): (r: seq<Entry>)
    ensures multiset(r) == multiset(es) + multiset{e} && Total(r) == Total(es) + Size(e)
  {
    if es == [] then [e]
    else if InOrder(e, es[0], descending) then [e] + es
    else
      var rest := Insert(e, es[1..], descending);
      assert es == [es[0]] + es[1..];
      [es[0]] + rest
  }

  /** Python's stable sort by lower-case name: with `reverse`, equal names still keep their order. */
  function Sorted(es: seq<Entry>, descending: bool): (r: seq<Entry>)
    ensures multiset(r) == multiset(es) && Total(r) == Total(es)
  {
    if es == [] then []
    else
      assert es == [es[0]] + es[1..];
      Insert(es[0], Sorted(es[1..], descending), descending)
  }

  predicate IsSorted(es: seq<Entry>, descending: bool) {
    forall i, j :: 0 <= i < j < |es| ==> InOrder(es[i], es[j], descending)
  }

  lemma {:induction false} InsertSorted(e: Entry, es: seq<Entry>, descending: bool)
    requires IsSorted(es, descending)
    ensures IsSorted(Insert(e, es, descending), descending)
  {
    if es != [] {
      if InOrder(e, es[0], descending) {
        forall j | 0 <= j < |es| ensures InOrder(e, es[j], descending) {
          if j > 0 { OrderTransitive(e, es[0], es[j], descending); }
        }
      } else {
        InsertSorted(e, es[1..], descending);
        var rest := Insert(e, es[1..], descending);
        forall j | 0 <= j < |rest| ensures InOrder(es[0], rest[j], descending) {
          assert rest[j] in multiset(rest);
          if rest[j] == e {
            BeforeTotal(Key(e), Key(es[0]));
          } else {
            assert rest[j] in es[1..];
          }
        }
      }
    }
  }

  lemma OrderTransitive(x: Entry, y: Entry, z: Entry, descending: bool)
    requires InOrder(x, y, descending) && InOrder(y, z, descending)
    ensures InOrder(x, z, descending)
  {
    if descending { BeforeTransitive(Key(z), Key(y), Key(x)); } else { BeforeTransitive(Key(x), Key(y), Key(z)); }
  }

  /** The sort sorts; its contract says that it loses and adds nothing. */
  lemma {:induction false} SortedIsSorted(es: seq<Entry>, descending: bool)
    ensures IsSorted(Sorted(es, descending), descending)
  {
    if es != [] {
      SortedIsSorted(es[1..], descending);
      InsertSorted(es[0], Sorted(es[1..], descending), descending);
    }
  }

  /** The entries with one lower-case name, in order. */
  function SameKey(es: seq<Entry>, key: string): seq<Entry> {
    if es == [] then [] else IfKey(es[0], key) + SameKey(es[1..], key)
  }

  lemma SameKeyCons(e: Entry, es: seq<Entry>, key: string)
    ensures SameKey([e] + es, key) == IfKey(e, key) + SameKey(es, key)
  {
    assert ([e] + es)[1..] == es;
  }

  /** The entry itself if it has the key. */
  function IfKey(e: Entry, key: string): seq<Entry> {
    if Key(e) == key then [e] else []
  }

  lemma {:induction false} InsertStable(e: Entry, es: seq<Entry>, descending: bool, key: string)
    ensures SameKey(Insert(e, es, descending), key) == IfKey(e, key) + SameKey(es, key)
  {
    hide SameKey;
    hide Key;
    hide InOrder;
    hide IfKey;
    if es == [] || InOrder(e, es[0], descending) {
      assert Insert(e, es, descending) == [e] + es;
      SameKeyCons(e, es, key);
    } else {
      var first, tail := es[0], es[1..];
      InsertStable(e, tail, descending, key);
      SameKeyCons(first, tail, key);
      assert es == [first] + tail;
      SameKeyCons(first, Insert(e, tail, descending), key);
      EqualKeysInOrder(e, first, descending);
      Exchange(e, first, key, SameKey(tail, key));
    }
  }

  lemma Exchange(e: Entry, first: Entry, key: string, tail: seq<Entry>)
    requires Key(e) != Key(first)
    ensures IfKey(first, key) + (IfKey(e, key) + tail) == IfKey(e, key) + (IfKey(first, key) + tail)
  {
    hide Key;
  }

  lemma EqualKeysInOrder(x: Entry, y: Entry, descending: bool)
    ensures Key(x) == Key(y) ==> InOrder(x, y, descending)
  {
    BeforeTotal(Key(x), Key(y));
  }

  /** Entries with equal lower-case names keep the order in which they were listed. */
  lemma {:induction false} SortedIsStable(es: seq<Entry>, descending: bool, key: string)
    ensures SameKey(Sorted(es, descending), key) == SameKey(es, key)
  {
    if es != [] {
      SortedIsStable(es[1..], descending, key);
      InsertStable(es[0], Sorted(es[1..], descending), descending, key);
    }
  }
}
