/**
 Replicated values shared by the store, the planner and the engine: metadata
 snapshots, file versions, operations, and the hash functions they are named by.
 */
module Versions {
  import opened VersionVectors
  import opened CopyNames

  datatype Option<+T> = None | Some(value: T)

  /** The durable metadata that names conflict copies (src/metadata.rs, naming_hash). */
  datatype Durable = Durable(kind: nat, mode: nat, rdev: nat, symlinkTarget: Option<seq<nat>>, xattrs: seq<(seq<nat>, seq<nat>)>)

  /** A full metadata snapshot: the durable part plus owner and time. */
  datatype Meta = Meta(durable: Durable, uid: nat, gid: nat, mtimeS: int, mtimeNs: nat)

  /** A 32-byte hash, ordered as the big-endian number it spells. */
  type Hash = nat

  type Uuid = nat

  const NO_HASH: Hash := 0

  /** What a version is made of: a content hash and a metadata snapshot. */
  datatype Content = Content(hash: Hash, meta: Option<Meta>)

  /**
   The hash functions of the system. Nothing is assumed of them but what a
   theorem asks for: that they tell apart the finitely many things at hand.
   */
  datatype Hashes = Hashes(
    meta: Meta -> Hash,
    naming: Durable -> Hash,
    digest: (Hash, Hash) -> string,
    copyOrigin: string -> NodeId,
    freshUuid: (NodeId, nat, string) -> Uuid,
    migrationUuid: string -> Uuid,
    sizeOf: Hash -> nat)
  {
    /** No two of these snapshots share a metadata hash, the absent one included. */
    ghost predicate TellsMetas(ms: set<Option<Meta>>) {
      forall m, n :: m in ms && n in ms && MetaHash(m) == MetaHash(n) ==> m == n
    }

    /** Copy-name digests are sixteen hex characters. */
    ghost predicate HexDigests() {
      forall c, n :: IsHex16(digest(c, n))
    }

    function DigestOf(x: Content): string {
      digest(x.hash, NamingHash(x.meta))
    }

    /** No two of these contents share a copy-name digest without sharing what it is taken of. */
    ghost predicate TellsNames(known: set<Content>) {
      forall x, y :: x in known && y in known && DigestOf(x) == DigestOf(y) ==> x.hash == y.hash && NamingHash(x.meta) == NamingHash(y.meta)
    }

    /** Equal naming hashes among these contents mean equal durable metadata. */
    ghost predicate TellsDurables(known: set<Content>) {
      forall x, y :: x in known && y in known && NamingHash(x.meta) == NamingHash(y.meta) ==> SameDurable(x.meta, y.meta)
    }

    /** Copy names keep these contents apart. */
    ghost predicate TellsCopies(known: set<Content>) {
      HexDigests() && TellsNames(known)
    }

    /** Copy names and winner keys keep these contents apart. */
    ghost predicate Tells(known: set<Content>) {
      TellsCopies(known) && TellsMetas(set x | x in known :: x.meta)
    }

    function MetaHash(m: Option<Meta>): Hash {
      if m.None? then NO_HASH else meta(m.value)
    }

    function NamingHash(m: Option<Meta>): Hash {
      if m.None? then NO_HASH else naming(m.value.durable)
    }
  }

  /** Two snapshots agree on everything a copy name is derived from. */
  predicate SameDurable(m: Option<Meta>, n: Option<Meta>) {
    m.Some? == n.Some? && (m.Some? ==> m.value.durable == n.value.durable)
  }

  /**
   One version of a file. A `files` row, an op-history candidate and a
   reconcile leaf all reduce to it, so one datatype serves for all three.
   */
  datatype Version = Version(
    tombstone: bool,
    hash: Option<Hash>,
    meta: Option<Meta>,
    mode: nat,
    size: nat,
    vv: VersionVector,
    uuid: Option<Uuid>)
  {
    /** Exactly the live versions carry content, and a delete carries no metadata. */
    predicate WellFormed() {
      tombstone == hash.None? && (tombstone ==> meta.None?)
    }

    function Carried(): Content
      requires hash.Some?
    {
      Content(hash.value, meta)
    }
  }

  datatype OpType = Write | Delete | Rename

  /** Identity of an op: the origin and its sequence number there. */
  type OpId = (NodeId, nat)

  datatype Op = Op(
    origin: NodeId,
    seqno: nat,
    kind: OpType,
    path: string,
    pathOld: Option<string>,
    uuid: Option<Uuid>,
    mode: nat,
    size: nat,
    hash: Option<Hash>,
    meta: Option<Meta>,
    vv: VersionVector)
  {
    function Id(): OpId { (origin, seqno) }

    /** Writes and renames carry content, deletes carry none; renames name a source. */
    predicate WellFormed() {
      && (kind == Delete <==> hash.None?)
      && (kind == Delete ==> meta.None?)
      && (kind == Rename <==> pathOld.Some?)
    }
  }

  /** The winner key of a version (src/conflict.rs, Version::key): larger wins. */
  datatype Key = Key(rank: nat, content: Hash, meta: Hash)

  function KeyOf(h: Hashes, v: Version): Key {
    Key(if v.tombstone then 0 else 1, if v.hash.None? then NO_HASH else v.hash.value, h.MetaHash(v.meta))
  }

  predicate KeyLeq(a: Key, b: Key) {
    || a.rank < b.rank
    || (a.rank == b.rank && a.content < b.content)
    || (a.rank == b.rank && a.content == b.content && a.meta <= b.meta)
  }

  /** The key order is total and antisymmetric, so a winner key is unique. */
  lemma KeyTotalOrder(a: Key, b: Key, c: Key)
    ensures KeyLeq(a, a)
    ensures KeyLeq(a, b) || KeyLeq(b, a)
    ensures KeyLeq(a, b) && KeyLeq(b, a) ==> a == b
    ensures KeyLeq(a, b) && KeyLeq(b, c) ==> KeyLeq(a, c)
  {
  }

  /** Versions with equal keys agree on kind, content and metadata. */
  lemma EqualKeys(h: Hashes, a: Version, b: Version)
    requires h.TellsMetas({a.meta, b.meta}) && a.WellFormed() && b.WellFormed()
    requires KeyOf(h, a) == KeyOf(h, b)
    ensures a.tombstone == b.tombstone && a.hash == b.hash && a.meta == b.meta
  {
  }

  predicate OptLeq(a: Option<nat>, b: Option<nat>) {
    a.None? || (b.Some? && a.value <= b.value)
  }

  function OptMax(a: Option<nat>, b: Option<nat>): Option<nat> {
    if OptLeq(a, b) then b else a
  }
}
