/** Index paths as component lists, and the text order directories are visited in (src/merkle.rs). */
module TreePaths {
  import opened CopyNames

  /** The components of a normalized path. */
  type Path = seq<string>

  predicate Normal(p: Path) {
    forall i :: 0 <= i < |p| ==> p[i] != "" && Free(p[i], '/')
  }

  function Parent(p: Path): Path
    requires p != []
  {
    p[..|p| - 1]
  }

  function Name(p: Path): string
    requires p != []
  {
    p[|p| - 1]
  }

  /** The '/'-separated text; the root is the empty text (join_prefix). */
  function Text(p: Path): string {
    if p == [] then ""
    else if |p| == 1 then p[0]
    else Text(Parent(p)) + "/" + Name(p)
  }

  /** Splitting off the last component (split_parent) inverts joining, so text names a path. */
  lemma {:induction false} TextInjective(p: Path, q: Path)
    requires Normal(p) && Normal(q) && Text(p) == Text(q)
    ensures p == q
  {
    TextSplits(p);
    TextSplits(q);
    if p != [] && q != [] {
      assert p == Parent(p) + [Name(p)] && q == Parent(q) + [Name(q)];
      if |p| > 1 && |q| > 1 {
        TextInjective(Parent(p), Parent(q));
      }
    }
  }

  lemma TextSplits(p: Path)
    requires Normal(p)
    ensures p == [] <==> Text(p) == ""
    ensures p != [] ==>
              var i := RFind(Text(p), '/');
              && Name(p) == Text(p)[i + 1..] && (i < 0 <==> |p| == 1)
              && (|p| > 1 ==> Text(Parent(p)) == Text(p)[..i])
  {
    if |p| == 1 {
      assert Free(p[0], '/');
      RFindUnique(p[0], '/', -1);
    } else if |p| > 1 {
      var head := Text(Parent(p));
      assert Free(Name(p), '/');
      assert Text(p) == (head + "/") + Name(p);
      RFindAppend(head + "/", Name(p), '/');
      RFindUnique(head + "/", '/', |head|);
    }
  }

  // ---------------------------------------------------------------- text order

  /** Lexicographic order of texts, as a sorted map iterates its keys. */
  predicate StrLeq(a: string, b: string) {
    a == "" || (b != "" && (a[0] < b[0] || (a[0] == b[0] && StrLeq(a[1..], b[1..]))))
  }

  lemma {:induction false} StrTotal(a: string, b: string)
    ensures StrLeq(a, b) || StrLeq(b, a)
    ensures StrLeq(a, b) && StrLeq(b, a) ==> a == b
  {
    if a != "" && b != "" && a[0] == b[0] {
      StrTotal(a[1..], b[1..]);
      if a[1..] == b[1..] {
        assert a == [a[0]] + a[1..] && b == [b[0]] + b[1..];
      }
    }
  }

  lemma {:induction false} StrTransitive(a: string, b: string, c: string)
    requires StrLeq(a, b) && StrLeq(b, c)
    ensures StrLeq(a, c)
  {
    if a != "" && a[0] == b[0] && b[0] == c[0] {
      StrTransitive(a[1..], b[1..], c[1..]);
    }
  }

  lemma {:induction false} StrPrefix(a: string, b: string)
    ensures StrLeq(a, a + b)
  {
    if a != "" {
      StrPrefix(a[1..], b);
      assert (a + b)[1..] == a[1..] + b;
    }
  }

  /** A directory's text sorts strictly before the text of everything inside it. */
  lemma ParentFirst(p: Path)
    requires p != [] && Normal(p)
    ensures StrLeq(Text(Parent(p)), Text(p)) && !StrLeq(Text(p), Text(Parent(p)))
  {
    var rest := if |p| == 1 then p[0] else "/" + Name(p);
    assert Text(p) == Text(Parent(p)) + rest;
    assert |rest| > 0;
    StrPrefix(Text(Parent(p)), rest);
    StrTotal(Text(Parent(p)), Text(p));
  }

  ghost predicate Sorted(s: seq<Path>) {
    forall i, j :: 0 <= i < j < |s| ==> StrLeq(Text(s[i]), Text(s[j]))
  }

  function InsertSorted(s: seq<Path>, x: Path): seq<Path> {
    if s == [] || StrLeq(Text(x), Text(s[0])) then [x] + s else [s[0]] + InsertSorted(s[1..], x)
  }

  lemma {:induction false} InsertSortedIs(s: seq<Path>, x: Path)
    requires Sorted(s)
    ensures Sorted(InsertSorted(s, x))
    ensures forall y :: y in InsertSorted(s, x) <==> y in s || y == x
  {
    if s == [] {
    } else if StrLeq(Text(x), Text(s[0])) {
      forall j | 0 <= j < |s| ensures StrLeq(Text(x), Text(s[j])) {
        if j > 0 {
          StrTransitive(Text(x), Text(s[0]), Text(s[j]));
        }
      }
    } else {
      InsertSortedIs(s[1..], x);
      assert s == [s[0]] + s[1..];
      var t := InsertSorted(s[1..], x);
      forall j | 0 <= j < |t| ensures StrLeq(Text(s[0]), Text(t[j])) {
        assert t[j] in t;
        StrTotal(Text(x), Text(s[0]));
      }
    }
  }

  /** The keys of a sorted map, in text order. */
  method SortedKeys(keys: set<Path>) returns (s: seq<Path>)
    ensures Sorted(s) && forall x :: x in s <==> x in keys
  {
    s := [];
    var todo := keys;
    while todo != {}
      invariant todo <= keys
      invariant Sorted(s) && forall x :: x in s <==> x in keys - todo
      decreases |todo|
    {
      var x :| x in todo;
      todo := todo - {x};
      InsertSortedIs(s, x);
      s := InsertSorted(s, x);
    }
  }

  /** In text order a directory never comes after its contents. */
  lemma ContentsAfter(s: seq<Path>, i: nat, j: nat)
    requires Sorted(s) && i < |s| && j < |s| && s[j] != [] && Normal(s[j]) && s[i] == Parent(s[j])
    ensures i < j
  {
    ParentFirst(s[j]);
  }
}
