/** The byte string a leaf hash is taken of (src/merkle.rs), and what it determines. */
module MerkleBytes {
  import opened Basics
  import opened SignedEntries

  type Bytes = seq<Byte>

  predicate FreeOf(s: Bytes, b: Byte) {
    forall i :: 0 <= i < |s| ==> s[i] != b
  }

  /** A field that ends at the first `b` is recovered, and so is what follows. */
  lemma Terminated(x: Bytes, s: Bytes, y: Bytes, t: Bytes, b: Byte)
    requires FreeOf(x, b) && FreeOf(y, b) && x + [b] + s == y + [b] + t
    ensures x == y && s == t
  {
    var u, v := x + [b] + s, y + [b] + t;
    assert u[|x|] == b && v[|y|] == b;
    assert x + ([b] + s) == u && y + ([b] + t) == v;
    Split(x, [b] + s, y, [b] + t);
    Split([b], s, [b], t);
  }

  // -------------------------------------------------------------------- leaves

  function LittleEndian(n: nat, w: nat): (s: Bytes)
    ensures |s| == w
  {
    if w == 0 then [] else [n % 256] + LittleEndian(n / 256, w - 1)
  }

  lemma {:induction false} LittleEndianInjective(n: nat, m: nat, w: nat)
    requires Fits(n, w) && Fits(m, w) && LittleEndian(n, w) == LittleEndian(m, w)
    ensures n == m
  {
    if w > 0 {
      assert LittleEndian(n, w)[0] == n % 256 && LittleEndian(m, w)[0] == m % 256;
      assert LittleEndian(n, w)[1..] == LittleEndian(n / 256, w - 1) && LittleEndian(m, w)[1..] == LittleEndian(m / 256, w - 1);
      LittleEndianInjective(n / 256, m / 256, w - 1);
    }
  }

  /** One component of a version vector: a 16-byte node id and its 64-bit count. */
  datatype Component = Component(node: Bytes, count: nat)

  predicate SizedComponent(c: Component) {
    |c.node| == 16 && Fits(c.count, 8)
  }

  function ComponentBytes(cs: seq<Component>): Bytes {
    if cs == [] then [] else cs[0].node + LittleEndian(cs[0].count, 8) + ComponentBytes(cs[1..])
  }

  /** The serialized vector: its length, then its components in order. */
  function VvBytes(cs: seq<Component>): Bytes {
    LittleEndian(|cs|, 8) + ComponentBytes(cs)
  }

  lemma {:induction false} ComponentsDetermined(cs: seq<Component>, ds: seq<Component>)
    requires |cs| == |ds| && (forall c :: c in cs || c in ds ==> SizedComponent(c)) && ComponentBytes(cs) == ComponentBytes(ds)
    ensures cs == ds
    decreases |cs|
  {
    if cs != [] {
      assert cs[0] in cs && ds[0] in ds;
      var x, y := cs[0].node + LittleEndian(cs[0].count, 8), ds[0].node + LittleEndian(ds[0].count, 8);
      Split(x, ComponentBytes(cs[1..]), y, ComponentBytes(ds[1..]));
      Split(cs[0].node, LittleEndian(cs[0].count, 8), ds[0].node, LittleEndian(ds[0].count, 8));
      LittleEndianInjective(cs[0].count, ds[0].count, 8);
      ComponentsDetermined(cs[1..], ds[1..]);
      assert cs == [cs[0]] + cs[1..] && ds == [ds[0]] + ds[1..];
    }
  }

  lemma VvDetermined(cs: seq<Component>, ds: seq<Component>)
    requires (forall c :: c in cs || c in ds ==> SizedComponent(c)) && Fits(|cs|, 8) && Fits(|ds|, 8) && VvBytes(cs) == VvBytes(ds)
    ensures cs == ds
  {
    Split(LittleEndian(|cs|, 8), ComponentBytes(cs), LittleEndian(|ds|, 8), ComponentBytes(ds));
    LittleEndianInjective(|cs|, |ds|, 8);
    ComponentsDetermined(cs, ds);
  }

  /** The fields of a row that its leaf hash covers. */
  datatype LeafFields = LeafFields(path: Bytes, tombstone: bool, content: Bytes, uuid: Bytes, meta: Bytes, vv: seq<Component>)

  ghost predicate SizedLeaf(x: LeafFields) {
    && FreeOf(x.path, 0) && |x.content| == 32 && |x.uuid| == 16 && |x.meta| == 32
    && Fits(|x.vv|, 8) && forall c :: c in x.vv ==> SizedComponent(c)
  }

  function Flag(b: bool): Bytes {
    [if b then 1 else 0]
  }

  function AfterPath(x: LeafFields): Bytes {
    Flag(x.tombstone) + (x.content + (x.uuid + (x.meta + VvBytes(x.vv))))
  }

  function LeafBytes(x: LeafFields): Bytes {
    x.path + [0] + AfterPath(x)
  }

  /** A leaf's bytes determine every hashed field: no path holds a zero byte and all else has its width. */
  lemma LeafDetermined(x: LeafFields, y: LeafFields)
    requires SizedLeaf(x) && SizedLeaf(y)
    ensures LeafBytes(x) == LeafBytes(y) <==> x == y
  {
    if LeafBytes(x) == LeafBytes(y) {
      Terminated(x.path, AfterPath(x), y.path, AfterPath(y), 0);
      var x3, y3 := x.meta + VvBytes(x.vv), y.meta + VvBytes(y.vv);
      var x2, y2 := x.uuid + x3, y.uuid + y3;
      Split(Flag(x.tombstone), x.content + x2, Flag(y.tombstone), y.content + y2);
      Split(x.content, x2, y.content, y2);
      Split(x.uuid, x3, y.uuid, y3);
      Split(x.meta, VvBytes(x.vv), y.meta, VvBytes(y.vv));
      VvDetermined(x.vv, y.vv);
      assert Flag(x.tombstone)[0] == Flag(y.tombstone)[0];
    }
  }
}
