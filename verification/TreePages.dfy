/**
 Directory listings in pages: the responder's page and the requester's loop
 (src/merkle.rs, src/net.rs). Lengths are counted in bytes of UTF-8.
 */
module TreePages {
  import opened Versions
  import opened TreePaths

  /** Children one response may carry. */
  const TREE_PAGE: nat := 512

  /** The longest child name, and the bytes one listing may cost. */
  const NAME_MAX: nat := 255
  const BUDGET: nat := 32 * 1024 * 1024

  predicate StrLess(a: string, b: string) {
    StrLeq(a, b) && a != b
  }

  /** A listing as the sorted map holds it. */
  ghost predicate Ascending(names: seq<string>) {
    forall i, j :: 0 <= i < j < |names| ==> StrLess(names[i], names[j])
  }

  /** The names strictly after `after`. */
  function Above(names: seq<string>, after: string): seq<string> {
    if names == [] || !StrLeq(names[0], after) then names else Above(names[1..], after)
  }

  function Min(a: nat, b: nat): nat {
    if a <= b then a else b
  }

  /** One page: up to `limit` names after `after`, and whether any are left. */
  method ChildrenPage(names: seq<string>, after: string, limit: nat) returns (page: seq<string>, more: bool)
    ensures var rest := Above(names, after);
            page == rest[..Min(limit, |rest|)] && (more <==> |rest| > limit)
  {
    ghost var rest := Above(names, after);
    var i := 0;
    while i < |names| && StrLeq(names[i], after)
      invariant 0 <= i <= |names| && Above(names[i..], after) == rest
    {
      assert names[i..][1..] == names[i + 1..];
      i := i + 1;
    }
    assert names[i..] == rest;
    page := [];
    while |page| < limit
      invariant |page| <= limit && |page| <= |rest| && page == rest[..|page|]
    {
      if i + |page| == |names| {
        return page, false;
      }
      assert rest[|page|] == names[i + |page|];
      page := page + [names[i + |page|]];
    }
    return page, i + |page| < |names|;
  }

  /** Asking after the last name received continues exactly where the last page stopped. */
  lemma {:induction false} PagesMeet(names: seq<string>, k: nat)
    requires Ascending(names) && k <= |names| && forall i :: 0 <= i < |names| ==> names[i] != ""
    ensures Above(names, if k == 0 then "" else names[k - 1]) == names[k..]
    decreases k
  {
    if k > 0 {
      StrTotal(names[0], names[k - 1]);
      if k == 1 {
        StopsAt(names[1..], names[0]);
      } else {
        var rest := names[1..];
        PagesMeet(rest, k - 1);
        assert rest[k - 2] == names[k - 1];
        assert StrLeq(names[0], names[k - 1]);
        assert rest[k - 1..] == names[k..];
      }
      StrTotal(names[0], names[0]);
    }
  }

  lemma StopsAt(names: seq<string>, after: string)
    requires names != [] ==> StrLess(after, names[0])
    ensures Above(names, after) == names
  {
    if names != [] {
      StrTotal(names[0], after);
    }
  }

  /** Bytes a character takes. */
  function Width(c: char): nat {
    var n := c as int;
    if n < 0x80 then 1 else if n < 0x800 then 2 else if n < 0x1_0000 then 3 else 4
  }

  /** How many code points `w` bytes of UTF-8 can tell apart: seven payload bits in one byte, 5w + 1 in more. */
  function Codes(w: nat): nat {
    TwoTo(if w == 1 then 7 else 5 * w + 1)
  }

  function TwoTo(n: nat): nat {
    if n == 0 then 1 else 2 * TwoTo(n - 1)
  }

  lemma CodesAre()
    ensures Codes(1) == 0x80 && Codes(2) == 0x800 && Codes(3) == 0x1_0000 && Codes(4) == 0x20_0000
  {
    assert TwoTo(7) == 0x80;
    assert TwoTo(11) == 16 * TwoTo(7);
    assert TwoTo(16) == 32 * TwoTo(11);
    assert TwoTo(21) == 32 * TwoTo(16);
  }

  /** A character takes the fewest bytes that can hold it. */
  lemma WidthIsLeast(c: char, w: nat)
    requires 1 <= w <= 4
    ensures Width(c) <= w <==> c as int < Codes(w)
  {
    CodesAre();
  }

  function ByteLen(s: string): nat {
    if s == "" then 0 else Width(s[0]) + ByteLen(s[1..])
  }

  predicate GoodName(name: string) {
    0 < ByteLen(name) <= NAME_MAX
  }

  /** What a listing costs: every name and 33 bytes of hash and flag. */
  function Cost(names: seq<string>): nat {
    if names == [] then 0 else Cost(names[..|names| - 1]) + ByteLen(names[|names| - 1]) + 33
  }

  ghost predicate Acceptable(names: seq<string>) {
    (forall i :: 0 <= i < |names| ==> GoodName(names[i])) && Cost(names) <= BUDGET
  }

  lemma {:induction false} CostGrows(names: seq<string>, k: nat)
    requires k <= |names|
    ensures Cost(names[..k]) <= Cost(names)
    decreases |names|
  {
    if k < |names| {
      CostGrows(names[..|names| - 1], k);
      assert names[..|names| - 1][..k] == names[..k];
    } else {
      assert names[..k] == names;
    }
  }

  lemma PrefixAcceptable(names: seq<string>, k: nat)
    requires k <= |names| && Acceptable(names)
    ensures Acceptable(names[..k])
  {
    CostGrows(names, k);
  }

  /** Charge a page against the budget, refusing names no file system holds. */
  method ChargePage(ghost got: seq<string>, page: seq<string>, start: nat) returns (ok: bool, budget: nat)
    requires Acceptable(got) && start == BUDGET - Cost(got)
    ensures ok <==> Acceptable(got + page)
    ensures ok ==> budget == BUDGET - Cost(got + page)
  {
    budget := start;
    assert got + page[..0] == got;
    for i := 0 to |page|
      invariant Acceptable(got + page[..i]) && budget == BUDGET - Cost(got + page[..i])
    {
      ghost var all := got + page[..i + 1];
      assert all[..|all| - 1] == got + page[..i] && all[|all| - 1] == page[i];
      assert (got + page)[..|all|] == all;
      if !GoodName(page[i]) || budget < ByteLen(page[i]) + 33 {
        if Acceptable(got + page) {
          PrefixAcceptable(got + page, |all|);
        }
        return false, 0;
      }
      budget := budget - (ByteLen(page[i]) + 33);
    }
    assert page[..|page|] == page;
    return true, budget;
  }

  /** One response, from whatever responder: refused when oversized, empty yet unfinished, or not acceptable. */
  method TakePage(ghost got: seq<string>, page: seq<string>, more: bool, start: nat) returns (ok: bool, budget: nat)
    requires Acceptable(got) && start == BUDGET - Cost(got)
    ensures ok <==> |page| <= TREE_PAGE && !(more && page == []) && Acceptable(got + page)
    ensures ok ==> budget == BUDGET - Cost(got + page)
  {
    if |page| > TREE_PAGE || (more && page == []) {
      return false, 0;
    }
    ok, budget := ChargePage(got, page, start);
  }

  /** The first `k` names of a listing are in, and the next page is asked for after the last of them. */
  ghost predicate Reading(names: seq<string>, got: seq<string>, after: string, budget: nat) {
    && |got| <= |names| && got == names[..|got|] && after == (if got == [] then "" else names[|got| - 1])
    && Acceptable(got) && budget == BUDGET - Cost(got)
  }

  ghost predicate Listing(names: seq<string>) {
    Ascending(names) && forall i :: 0 <= i < |names| ==> names[i] != ""
  }

  /** What an honest page adds. */
  lemma HonestPage(names: seq<string>, got: seq<string>, after: string, budget: nat, page: seq<string>, more: bool)
    requires Listing(names) && Reading(names, got, after, budget)
    requires var rest := Above(names, after); page == rest[..Min(TREE_PAGE, |rest|)] && (more <==> |rest| > TREE_PAGE)
    ensures |page| <= TREE_PAGE && !(more && page == [])
    ensures |got| + |page| <= |names| && got + page == names[..|got| + |page|]
    ensures page != [] ==> page[|page| - 1] == names[|got| + |page| - 1]
    ensures !more ==> |got| + |page| == |names|
  {
    PagesMeet(names, |got|);
  }

  /** A listing with an unacceptable beginning is unacceptable. */
  lemma BeginningCounts(names: seq<string>, k: nat)
    requires k <= |names| && !Acceptable(names[..k])
    ensures !Acceptable(names)
  {
    if Acceptable(names) {
      PrefixAcceptable(names, k);
    }
  }

  lemma KeepsReading(names: seq<string>, got: seq<string>, after: string, budget: nat, page: seq<string>, left: nat)
    requires Reading(names, got, after, budget) && |got| + |page| <= |names| && got + page == names[..|got| + |page|]
    requires page != [] ==> page[|page| - 1] == names[|got| + |page| - 1]
    requires Acceptable(got + page) && left == BUDGET - Cost(got + page)
    ensures Reading(names, got + page, if page == [] then after else page[|page| - 1], left)
  {
    if page == [] {
      assert got + page == got;
    }
  }

  /**
   The requester's loop over the pages of an honest responder: the whole
   listing, each child once and in order, exactly when every name is acceptable
   and the listing fits the budget; otherwise the session is refused.
   */
  method Children(names: seq<string>) returns (r: Option<seq<string>>)
    requires Listing(names)
    ensures r == if Acceptable(names) then Some(names) else None
  {
    var got: seq<string> := [];
    var after := "";
    var budget := BUDGET;
    var more := true;
    while more
      invariant Reading(names, got, after, budget) && (!more ==> got == names)
      decreases more, |names| - |got|
    {
      var ok;
      ok, more, got, after, budget := ReadOne(names, got, after, budget);
      if !ok {
        return None;
      }
    }
    return Some(got);
  }

  /** One round trip: ask, check, append. */
  method ReadOne(names: seq<string>, start: seq<string>, after: string, budget: nat)
    returns (ok: bool, more: bool, got: seq<string>, last: string, left: nat)
    requires Listing(names) && Reading(names, start, after, budget)
    ensures !ok ==> !Acceptable(names)
    ensures ok ==> Reading(names, got, last, left) && |start| <= |got| && (more ==> |start| < |got|) && (!more ==> got == names)
  {
    var page;
    page, more := ChildrenPage(names, after, TREE_PAGE);
    HonestPage(names, start, after, budget, page, more);
    ok, left := TakePage(start, page, more, budget);
    got := start + page;
    last := if page == [] then after else page[|page| - 1];
    if ok {
      KeepsReading(names, start, after, budget, page, left);
      assert names[..|names|] == names;
    } else {
      BeginningCounts(names, |got|);
    }
  }

  lemma {:induction false} CostCounts(names: seq<string>)
    requires forall i :: 0 <= i < |names| ==> GoodName(names[i])
    ensures 34 * |names| <= Cost(names)
    decreases |names|
  {
    if names != [] {
      assert forall i :: 0 <= i < |names| - 1 ==> names[..|names| - 1][i] == names[i];
      CostCounts(names[..|names| - 1]);
    }
  }

  /** No responder, however hostile, makes the requester hold more than 986,895 children of one directory. */
  lemma AcceptedCount(got: seq<string>)
    requires Acceptable(got)
    ensures |got| <= 986895
  {
    CostCounts(got);
  }

  // -------------------------------------------------------- any responder at all

  datatype Response = Response(page: seq<string>, more: bool)

  /** What the requester makes of a series of responses; a series that ends early is a closed session. */
  ghost function Verdict(got: seq<string>, rs: seq<Response>): Option<seq<string>>
    decreases |rs|
  {
    if rs == [] || |rs[0].page| > TREE_PAGE || (rs[0].more && rs[0].page == []) || !Acceptable(got + rs[0].page) then None
    else if !rs[0].more then Some(got + rs[0].page)
    else Verdict(got + rs[0].page, rs[1..])
  }

  /** Whatever comes back, what is accepted is bounded in names and in bytes. */
  lemma {:induction false} AcceptedIsBounded(got: seq<string>, rs: seq<Response>)
    ensures Verdict(got, rs).Some? ==> Acceptable(Verdict(got, rs).value) && got <= Verdict(got, rs).value
    decreases |rs|
  {
    if rs != [] && rs[0].more {
      AcceptedIsBounded(got + rs[0].page, rs[1..]);
    }
  }

  /** The requester's loop against any responder. */
  method Collect(rs: seq<Response>) returns (r: Option<seq<string>>)
    ensures r == Verdict([], rs)
    ensures r.Some? ==> Acceptable(r.value)
  {
    AcceptedIsBounded([], rs);
    var got: seq<string> := [];
    var budget, i := BUDGET, 0;
    assert rs[0..] == rs;
    while i < |rs|
      invariant 0 <= i <= |rs| && Acceptable(got) && budget == BUDGET - Cost(got)
      invariant Verdict([], rs) == Verdict(got, rs[i..])
    {
      assert rs[i..][0] == rs[i] && rs[i..][1..] == rs[i + 1..];
      var ok, left := TakePage(got, rs[i].page, rs[i].more, budget);
      if !ok {
        return None;
      }
      got, budget := got + rs[i].page, left;
      if !rs[i].more {
        return Some(got);
      }
      i := i + 1;
    }
    return None;
  }
}
