/** Signed membership entries and the canonical bytes their signatures and hashes cover (src/admin.rs). */
module SignedEntries {
  import opened Basics

  type Id = nat

  /** `n` is a `w`-byte number. */
  predicate Fits(n: nat, w: nat) {
    if w == 0 then n == 0 else Fits(n / 256, w - 1)
  }

  function BigEndian(n: nat, w: nat): (s: seq<Byte>)
    ensures |s| == w
  {
    if w == 0 then [] else BigEndian(n / 256, w - 1) + [n % 256]
  }

  lemma {:induction false} BigEndianInjective(n: nat, m: nat, w: nat)
    requires Fits(n, w) && Fits(m, w) && BigEndian(n, w) == BigEndian(m, w)
    ensures n == m
  {
    if w > 0 {
      var x, y := BigEndian(n / 256, w - 1), BigEndian(m / 256, w - 1);
      assert BigEndian(n, w)[..w - 1] == x && BigEndian(m, w)[..w - 1] == y;
      assert BigEndian(n, w)[w - 1] == n % 256 && BigEndian(m, w)[w - 1] == m % 256;
      BigEndianInjective(n / 256, m / 256, w - 1);
    }
  }

  /** A socket address; an IPv6 one also carries a flow label and a scope. */
  datatype Addr = V4(ip: nat, port: nat) | V6(ip: nat, port: nat, flow: nat, scope: nat)

  datatype Kind = Add | Remove
  {
    function AsByte(): Byte { if Add? then 0 else 1 }
  }

  datatype Entry = Entry(node: Id, addr: Addr, fingerprint: nat, epoch: nat, kind: Kind, sig: seq<Byte>)

  /** The fixed widths of the fields: 16-byte ids, 32-byte fingerprints, 64-bit epochs, 16-bit ports. */
  predicate WellSized(e: Entry) {
    && Fits(e.node, 16) && Fits(e.fingerprint, 32) && Fits(e.epoch, 8)
    && Fits(e.addr.ip, if e.addr.V4? then 4 else 16) && Fits(e.addr.port, 2)
  }

  /** Exactly what the signature vouches for: no signature, no IPv6 flow or scope. */
  function Intent(e: Entry): Entry {
    e.(sig := [], addr := if e.addr.V4? then e.addr else V6(e.addr.ip, e.addr.port, 0, 0))
  }

  /** "replicore-roster-v1" and a zero byte. */
  const DOMAIN_TAG: seq<Byte> := [114, 101, 112, 108, 105, 99, 111, 114, 101, 45, 114, 111, 115, 116, 101, 114, 45, 118, 49, 0]

  function FamilyByte(a: Addr): Byte {
    if a.V4? then 4 else 6
  }

  function IpBytes(a: Addr): (s: seq<Byte>)
    ensures |s| == if a.V4? then 4 else 16
  {
    BigEndian(a.ip, if a.V4? then 4 else 16)
  }

  function Canonical(e: Entry): seq<Byte> {
    DOMAIN_TAG + (BigEndian(e.node, 16) + ([FamilyByte(e.addr)] + (IpBytes(e.addr) + (BigEndian(e.addr.port, 2)
    + (BigEndian(e.fingerprint, 32) + (BigEndian(e.epoch, 8) + [e.kind.AsByte()]))))))
  }

  /** The canonical buffer, filled field by field. */
  method CanonicalEntryBytes(e: Entry) returns (out: seq<Byte>)
    ensures out == Canonical(e)
  {
    out := DOMAIN_TAG;
    out := out + BigEndian(e.node, 16);
    match e.addr {
      case V4(ip, _) =>
        out := out + [4];
        out := out + BigEndian(ip, 4);
      case V6(ip, _, _, _) =>
        out := out + [6];
        out := out + BigEndian(ip, 16);
    }
    out := out + BigEndian(e.addr.port, 2);
    out := out + BigEndian(e.fingerprint, 32);
    out := out + BigEndian(e.epoch, 8);
    out := out + [e.kind.AsByte()];
  }

  /** The buffer's length, by address family, and its last byte, which alone tells an Add from a Remove. */
  lemma CanonicalEnds(e: Entry)
    ensures |Canonical(e)| == if e.addr.V4? then 84 else 96
    ensures Canonical(e)[|Canonical(e)| - 1] == if e.kind == Add then 0 else 1
    ensures forall k :: Canonical(e.(kind := k)) == Canonical(e)[..|Canonical(e)| - 1] + [k.AsByte()]
  {
    var s := Canonical(e);
    var body := DOMAIN_TAG + (BigEndian(e.node, 16) + ([FamilyByte(e.addr)] + (IpBytes(e.addr) + (BigEndian(e.addr.port, 2)
      + (BigEndian(e.fingerprint, 32) + BigEndian(e.epoch, 8))))));
    forall k: Kind ensures Canonical(e.(kind := k)) == body + [k.AsByte()] {
    }
    assert e.(kind := e.kind) == e;
    assert s == body + [e.kind.AsByte()];
  }

  /** Fields of equal width split off the front of equal texts. */
  lemma Split(x: seq<Byte>, s: seq<Byte>, y: seq<Byte>, t: seq<Byte>)
    requires |x| == |y| && x + s == y + t
    ensures x == y && s == t
  {
    assert (x + s)[..|x|] == x && (y + t)[..|x|] == y;
    assert (x + s)[|x|..] == s && (y + t)[|x|..] == t;
  }

  /** The fields after the address family byte, with what follows the entry. */
  function Fields(e: Entry, rest: seq<Byte>): seq<Byte> {
    IpBytes(e.addr) + (BigEndian(e.addr.port, 2) + (BigEndian(e.fingerprint, 32) + (BigEndian(e.epoch, 8) + ([e.kind.AsByte()] + rest))))
  }

  lemma Layout(e: Entry, rest: seq<Byte>)
    ensures Canonical(e) + rest == DOMAIN_TAG + (BigEndian(e.node, 16) + ([FamilyByte(e.addr)] + Fields(e, rest)))
  {
  }

  lemma SameFields(a: Entry, b: Entry, s: seq<Byte>, t: seq<Byte>)
    requires WellSized(a) && WellSized(b) && a.addr.V4? == b.addr.V4? && Fields(a, s) == Fields(b, t)
    ensures a.addr.ip == b.addr.ip && a.addr.port == b.addr.port && a.fingerprint == b.fingerprint
    ensures a.epoch == b.epoch && a.kind == b.kind && s == t
  {
    var a4, b4 := [a.kind.AsByte()] + s, [b.kind.AsByte()] + t;
    var a3, b3 := BigEndian(a.epoch, 8) + a4, BigEndian(b.epoch, 8) + b4;
    var a2, b2 := BigEndian(a.fingerprint, 32) + a3, BigEndian(b.fingerprint, 32) + b3;
    var a1, b1 := BigEndian(a.addr.port, 2) + a2, BigEndian(b.addr.port, 2) + b2;
    Split(IpBytes(a.addr), a1, IpBytes(b.addr), b1);
    Split(BigEndian(a.addr.port, 2), a2, BigEndian(b.addr.port, 2), b2);
    Split(BigEndian(a.fingerprint, 32), a3, BigEndian(b.fingerprint, 32), b3);
    Split(BigEndian(a.epoch, 8), a4, BigEndian(b.epoch, 8), b4);
    Split([a.kind.AsByte()], s, [b.kind.AsByte()], t);
    BigEndianInjective(a.addr.ip, b.addr.ip, if a.addr.V4? then 4 else 16);
    BigEndianInjective(a.addr.port, b.addr.port, 2);
    BigEndianInjective(a.fingerprint, b.fingerprint, 32);
    BigEndianInjective(a.epoch, b.epoch, 8);
    assert [a.kind.AsByte()][0] == [b.kind.AsByte()][0];
  }

  /** Canonical bytes are injective in what is signed, and prefix free. */
  lemma PrefixFree(a: Entry, b: Entry, s: seq<Byte>, t: seq<Byte>)
    requires WellSized(a) && WellSized(b) && Canonical(a) + s == Canonical(b) + t
    ensures Intent(a) == Intent(b) && s == t
  {
    Layout(a, s);
    Layout(b, t);
    var a2, b2 := [FamilyByte(a.addr)] + Fields(a, s), [FamilyByte(b.addr)] + Fields(b, t);
    Split(DOMAIN_TAG, BigEndian(a.node, 16) + a2, DOMAIN_TAG, BigEndian(b.node, 16) + b2);
    Split(BigEndian(a.node, 16), a2, BigEndian(b.node, 16), b2);
    Split([FamilyByte(a.addr)], Fields(a, s), [FamilyByte(b.addr)], Fields(b, t));
    BigEndianInjective(a.node, b.node, 16);
    assert [FamilyByte(a.addr)][0] == [FamilyByte(b.addr)][0];
    SameFields(a, b, s, t);
  }

  /** Two entries share their canonical bytes exactly when they sign the same intent. */
  lemma CanonicalIsIntent(a: Entry, b: Entry)
    requires WellSized(a) && WellSized(b)
    ensures Canonical(a) == Canonical(b) <==> Intent(a) == Intent(b)
  {
    if Canonical(a) == Canonical(b) {
      PrefixFree(a, b, [], []);
    }
    if Intent(a) == Intent(b) {
      assert a.addr.ip == b.addr.ip && a.addr.port == b.addr.port && a.addr.V4? == b.addr.V4?;
    }
  }

  /** What a roster digest absorbs after its own tag. */
  function Transcript(es: seq<Entry>): seq<Byte> {
    if es == [] then [] else Canonical(es[0]) + Transcript(es[1..])
  }

  predicate SameIntents(es: seq<Entry>, fs: seq<Entry>) {
    |es| == |fs| && forall i :: 0 <= i < |es| ==> Intent(es[i]) == Intent(fs[i])
  }

  /** The digest input determines the list of entries, and the other way round. */
  lemma {:induction false} TranscriptDetermines(es: seq<Entry>, fs: seq<Entry>)
    requires forall e :: e in es || e in fs ==> WellSized(e)
    ensures Transcript(es) == Transcript(fs) <==> SameIntents(es, fs)
    decreases |es|
  {
    if es != [] && fs != [] {
      assert es[0] in es && fs[0] in fs;
      TranscriptDetermines(es[1..], fs[1..]);
      if Transcript(es) == Transcript(fs) {
        PrefixFree(es[0], fs[0], Transcript(es[1..]), Transcript(fs[1..]));
      }
      if SameIntents(es, fs) {
        CanonicalIsIntent(es[0], fs[0]);
      }
    }
  }
}
