/** Conflict-copy file names (src/conflict.rs, copy_path_for). */
module CopyNames {

  const COPY_MARKER: string := ".sync-conflict-"

  /** Sixteen hex characters: no separator, no dot. */
  predicate IsHex16(x: string) {
    |x| == 16 && forall i :: 0 <= i < |x| ==> x[i] in "0123456789abcdef"
  }

  /** Index of the last `c`, or -1. */
  function RFind(s: string, c: char): (r: int)
    ensures -1 <= r < |s|
    ensures r >= 0 ==> s[r] == c
    ensures forall i :: r < i < |s| ==> s[i] != c
  {
    if s == [] then -1
    else if s[|s| - 1] == c then |s| - 1
    else RFind(s[..|s| - 1], c)
  }

  function Dir(path: string): string { path[..RFind(path, '/') + 1] }

  function Base(path: string): string { path[RFind(path, '/') + 1..] }

  /** Where the extension starts; a leading dot is not an extension. */
  function StemEnd(name: string): (k: nat)
    ensures k <= |name|
  {
    if RFind(name, '.') > 0 then RFind(name, '.') else |name|
  }

  function Extension(path: string): string { Base(path)[StemEnd(Base(path))..] }

  function CopyName(name: string, hex: string): string {
    name[..StemEnd(name)] + (COPY_MARKER + hex) + name[StemEnd(name)..]
  }

  function CopyPathFor(path: string, hex: string): string {
    Dir(path) + CopyName(Base(path), hex)
  }

  /** A name that embeds the copy marker; no other path is ever planned as a copy. */
  predicate IsCopyName(path: string) {
    exists i :: 0 <= i <= |path| && MarkerAt(path, i)
  }

  predicate MarkerAt(path: string, i: int) {
    0 <= i <= |path| - |COPY_MARKER| && path[i..i + |COPY_MARKER|] == COPY_MARKER
  }

  lemma RFindUnique(s: string, c: char, r: int)
    requires -1 <= r < |s|
    requires r >= 0 ==> s[r] == c
    requires forall i :: r < i < |s| ==> s[i] != c
    ensures RFind(s, c) == r
  {
  }

  lemma MarkerChars(hex: string)
    requires IsHex16(hex)
    ensures var m := COPY_MARKER + hex;
            |m| == 31 && m[0] == '.' &&
            (forall i :: 0 <= i < 31 ==> m[i] != '/') && (forall i :: 1 <= i < 31 ==> m[i] != '.')
  {
  }

  predicate Free(s: string, c: char) {
    forall i :: 0 <= i < |s| ==> s[i] != c
  }

  /** Appending text without `c` does not move the last `c`. */
  lemma RFindAppend(s: string, t: string, c: char)
    requires Free(t, c)
    ensures RFind(s + t, c) == RFind(s, c)
  {
    RFindUnique(s + t, c, RFind(s, c));
  }

  /** The copy stays in the directory of the original. */
  lemma CopyKeepsDirectory(path: string, hex: string)
    requires IsHex16(hex)
    ensures Dir(CopyPathFor(path, hex)) == Dir(path)
    ensures Base(CopyPathFor(path, hex)) == CopyName(Base(path), hex)
  {
    MarkerChars(hex);
    var dir, base := Dir(path), Base(path);
    assert path == dir + base;
    assert Free(base, '/') && Free(COPY_MARKER + hex, '/');
    var k := StemEnd(base);
    var name := base[..k] + (COPY_MARKER + hex) + base[k..];
    assert Free(name, '/');
    RFindAppend(dir, base, '/');
    RFindAppend(dir, name, '/');
  }

  /** Where the last dot of a copy name sits, and what surrounds it. */
  lemma CopyNameShape(name: string, hex: string)
    requires IsHex16(hex)
    ensures var d := RFind(CopyName(name, hex), '.');
            var out := CopyName(name, hex);
            var k := StemEnd(name);
            if k < |name| then d == k + 31 && out[k..d] == COPY_MARKER + hex && out[..k] == name[..k] && out[d..] == name[k..]
            else d == k && out[d..] == COPY_MARKER + hex && out[..d] == name
  {
    MarkerChars(hex);
    var k := StemEnd(name);
    var m := COPY_MARKER + hex;
    var out := CopyName(name, hex);
    assert out == name[..k] + m + name[k..];
    if k < |name| {
      assert out[k + 31] == name[k];
      assert forall i :: k + 31 < i < |out| ==> out[i] == name[i - 31];
      RFindUnique(out, '.', k + 31);
    } else {
      assert out[k] == m[0];
      assert forall i :: k < i < |out| ==> out[i] == m[i - k];
      RFindUnique(out, '.', k);
    }
  }

  lemma CopyKeepsExtension(path: string, hex: string)
    requires IsHex16(hex)
    requires Extension(path) != []
    ensures Extension(CopyPathFor(path, hex)) == Extension(path)
  {
    CopyKeepsDirectory(path, hex);
    CopyNameShape(Base(path), hex);
  }

  /** The name splits at its last dot; a leading dot, or none, leaves it whole. */
  predicate SplitsAt(stem: string, ext: string) {
    if ext == "" then forall i :: 1 <= i < |stem| ==> stem[i] != '.'
    else stem != "" && ext[0] == '.' && Free(ext[1..], '.')
  }

  lemma StemEndIs(stem: string, ext: string)
    requires SplitsAt(stem, ext)
    ensures StemEnd(stem + ext) == |stem|
  {
    if ext != "" {
      assert forall i :: |stem| < i < |stem + ext| ==> (stem + ext)[i] == ext[1..][i - |stem| - 1];
      RFindUnique(stem + ext, '.', |stem|);
    } else {
      assert stem + ext == stem;
    }
  }

  /** Where the marker goes: after the stem, before the extension, in the same directory. */
  lemma CopyPathFormat(dir: string, stem: string, ext: string, hex: string)
    requires (dir == "" || dir[|dir| - 1] == '/') && Free(stem + ext, '/') && SplitsAt(stem, ext)
    ensures CopyPathFor(dir + (stem + ext), hex) == dir + (stem + ".sync-conflict-" + hex + ext)
  {
    SplitPath(dir, stem + ext);
    CopyNameFormat(stem, ext, hex);
  }

  lemma SplitPath(dir: string, name: string)
    requires (dir == "" || dir[|dir| - 1] == '/') && Free(name, '/')
    ensures Dir(dir + name) == dir && Base(dir + name) == name
  {
    RFindUnique(dir, '/', |dir| - 1);
    RFindAppend(dir, name, '/');
  }

  lemma CopyNameFormat(stem: string, ext: string, hex: string)
    requires SplitsAt(stem, ext)
    ensures CopyName(stem + ext, hex) == stem + ".sync-conflict-" + hex + ext
  {
    StemEndIs(stem, ext);
    assert (stem + ext)[..|stem|] == stem && (stem + ext)[|stem|..] == ext;
  }

  /** A name taken from a path with an extension never reads as one without. */
  lemma ExtensionVisible(a: string, x: string, b: string, y: string)
    requires IsHex16(x) && IsHex16(y)
    requires CopyName(a, x) == CopyName(b, y)
    requires StemEnd(a) < |a|
    ensures StemEnd(b) < |b|
  {
    CopyNameShape(a, x);
    CopyNameShape(b, y);
    MarkerChars(x);
  }

  lemma CopyNameInjective(a: string, x: string, b: string, y: string)
    requires IsHex16(x) && IsHex16(y)
    requires CopyName(a, x) == CopyName(b, y)
    ensures a == b && x == y
  {
    CopyNameShape(a, x);
    CopyNameShape(b, y);
    if StemEnd(a) < |a| {
      ExtensionVisible(a, x, b, y);
    } else if StemEnd(b) < |b| {
      ExtensionVisible(b, y, a, x);
    }
    assert COPY_MARKER + x == COPY_MARKER + y;
    assert x == (COPY_MARKER + x)[|COPY_MARKER|..];
    assert y == (COPY_MARKER + y)[|COPY_MARKER|..];
    assert a == a[..StemEnd(a)] + a[StemEnd(a)..];
    assert b == b[..StemEnd(b)] + b[StemEnd(b)..];
  }

  /** Equal copy paths come from the same path and the same digest, for all paths. */
  lemma CopyPathInjective(p: string, x: string, q: string, y: string)
    requires IsHex16(x) && IsHex16(y)
    requires CopyPathFor(p, x) == CopyPathFor(q, y)
    ensures p == q && x == y
  {
    CopyKeepsDirectory(p, x);
    CopyKeepsDirectory(q, y);
    CopyNameInjective(Base(p), x, Base(q), y);
    assert p == Dir(p) + Base(p) && q == Dir(q) + Base(q);
  }

  /** Each link of a collision chain is longer than the last, so no path recurs. */
  lemma CopyPathGrows(path: string, hex: string)
    requires IsHex16(hex)
    ensures |CopyPathFor(path, hex)| == |path| + 31
  {
  }

  lemma CopyPathIsCopyName(path: string, hex: string)
    ensures IsCopyName(CopyPathFor(path, hex))
  {
    var head := Dir(path) + Base(path)[..StemEnd(Base(path))];
    var tail := hex + Base(path)[StemEnd(Base(path))..];
    assert CopyPathFor(path, hex) == head + COPY_MARKER + tail;
    MarkerInside(head, tail);
  }

  lemma MarkerInside(head: string, tail: string)
    ensures IsCopyName(head + COPY_MARKER + tail)
  {
    assert MarkerAt(head + COPY_MARKER + tail, |head|);
  }
}
