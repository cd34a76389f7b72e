/** Bytes, walks over maps, and a collision-free numbering of byte strings. */
module Basics {

  type Byte = b: int | 0 <= b < 256

  /** Mid-walk over `all`: `seen` is exactly what is not in `todo`. */
  ghost predicate Part<K, V(!new)>(seen: map<K, V>, all: map<K, V>, todo: set<K>) {
    todo <= all.Keys && seen.Keys == all.Keys - todo && forall k :: k in seen ==> seen[k] == all[k]
  }

  /** A byte string as a number in base 257, digits 1 to 256. */
  function Number(s: seq<Byte>): nat {
    if s == [] then 0 else Number(s[..|s| - 1]) * 257 + s[|s| - 1] + 1
  }

  /** Collision freedom of an unbounded hash is no contradiction: numbering has it. */
  lemma {:induction false} NumberInjective(s: seq<Byte>, t: seq<Byte>)
    requires Number(s) == Number(t)
    ensures s == t
    decreases |s|
  {
    if s != [] && t != [] {
      var a, x, b, y := Number(s[..|s| - 1]), s[|s| - 1], Number(t[..|t| - 1]), t[|t| - 1];
      Digits(a, x, b, y);
      NumberInjective(s[..|s| - 1], t[..|t| - 1]);
      assert s == s[..|s| - 1] + [x] && t == t[..|t| - 1] + [y];
    }
  }

  lemma Digits(a: nat, x: Byte, b: nat, y: Byte)
    requires a * 257 + x == b * 257 + y
    ensures a == b && x == y
  {
    assert 257 * (a - b) == y - x;
  }
}
