/** Content-addressed chunks and sparse assembly (src/chunk.rs). Cut points are arbitrary; hashing is a parameter. */
module Chunks {
  import opened Basics

  type Bytes = seq<Byte>

  type ChunkHash = nat

  datatype ChunkEntry = ChunkEntry(hash: ChunkHash, len: nat)

  datatype Manifest = Manifest(contentHash: ChunkHash, chunks: seq<ChunkEntry>)

  datatype Outcome<T> = Ok(value: T) | HashMismatch | Missing

  /** Lengths travel as 32-bit numbers. */
  function Len32(n: nat): nat {
    n % 0x1_0000_0000
  }

  ghost predicate CollisionFree(hash: Bytes -> ChunkHash) {
    forall x, y :: hash(x) == hash(y) ==> x == y
  }

  lemma CollisionFreeExists()
    ensures CollisionFree(Number)
  {
    forall x, y | Number(x) == Number(y) ensures x == y {
      NumberInjective(x, y);
    }
  }

  function Concat(pieces: seq<Bytes>): Bytes {
    if pieces == [] then [] else Concat(pieces[..|pieces| - 1]) + pieces[|pieces| - 1]
  }

  lemma ConcatStep(pieces: seq<Bytes>, i: nat)
    requires i < |pieces|
    ensures Concat(pieces[..i + 1]) == Concat(pieces[..i]) + pieces[i]
  {
    assert pieces[..i + 1][..i] == pieces[..i];
  }

  function EntryOf(hash: Bytes -> ChunkHash, piece: Bytes): ChunkEntry {
    ChunkEntry(hash(piece), Len32(|piece|))
  }

  /** The chunk file under `h` holds what its name says. */
  predicate Intact(hash: Bytes -> ChunkHash, files: map<ChunkHash, Bytes>, h: ChunkHash) {
    h in files && hash(files[h]) == h
  }

  predicate Corrupt(hash: Bytes -> ChunkHash, files: map<ChunkHash, Bytes>, h: ChunkHash) {
    h in files && hash(files[h]) != h
  }

  predicate Good(hash: Bytes -> ChunkHash, files: map<ChunkHash, Bytes>, e: ChunkEntry) {
    Intact(hash, files, e.hash) && Len32(|files[e.hash]|) == e.len
  }

  // ----------------------------------------------------------- the chunk store

  class Cas {
    const hash: Bytes -> ChunkHash
    var files: map<ChunkHash, Bytes>

    constructor (hash: Bytes -> ChunkHash, files: map<ChunkHash, Bytes>)
      ensures this.hash == hash && this.files == files
    {
      this.hash := hash;
      this.files := files;
    }

    /** Verify before anything is written; an existing chunk is left as it is. */
    method PutVerified(h: ChunkHash, bytes: Bytes) returns (r: Outcome<()>)
      modifies this
      ensures r == if hash(bytes) == h then Ok(()) else HashMismatch
      ensures files == if hash(bytes) == h && h !in old(files) then old(files)[h := bytes] else old(files)
    {
      if hash(bytes) != h {
        return HashMismatch;
      }
      if h !in files {
        files := files[h := bytes];
      }
      return Ok(());
    }

    /** Read back and re-verify; a corrupt chunk is dropped so that it can be fetched again. */
    method Read(h: ChunkHash) returns (r: Outcome<Bytes>)
      modifies this
      ensures r.Ok? <==> Intact(hash, old(files), h)
      ensures r.Ok? ==> r.value == old(files)[h]
      ensures r == HashMismatch <==> Corrupt(hash, old(files), h)
      ensures files == if r == HashMismatch then old(files) - {h} else old(files)
    {
      if h !in files {
        return Missing;
      }
      var bytes := files[h];
      if hash(bytes) != h {
        files := files - {h};
        return HashMismatch;
      }
      return Ok(bytes);
    }
  }

  /** The store after all `pieces` are put: absent chunks appear, present ones stay. */
  function Put(hash: Bytes -> ChunkHash, files: map<ChunkHash, Bytes>, pieces: seq<Bytes>): map<ChunkHash, Bytes> {
    if pieces == [] then files
    else
      var mid, last := Put(hash, files, pieces[..|pieces| - 1]), pieces[|pieces| - 1];
      if hash(last) in mid then mid else mid[hash(last) := last]
  }

  function ManifestOf(hash: Bytes -> ChunkHash, pieces: seq<Bytes>): Manifest {
    Manifest(hash(Concat(pieces)), seq(|pieces|, i requires 0 <= i < |pieces| => EntryOf(hash, pieces[i])))
  }

  /** One read pass: hash and store each piece, and accumulate the whole-file hash. */
  method ChunkFileIntoCas(pieces: seq<Bytes>, cas: Cas) returns (m: Manifest)
    modifies cas
    ensures m == ManifestOf(cas.hash, pieces)
    ensures cas.files == Put(cas.hash, old(cas.files), pieces)
  {
    var whole: Bytes := [];
    var chunks: seq<ChunkEntry> := [];
    for i := 0 to |pieces|
      invariant whole == Concat(pieces[..i])
      invariant |chunks| == i && forall j :: 0 <= j < i ==> chunks[j] == EntryOf(cas.hash, pieces[j])
      invariant cas.files == Put(cas.hash, old(cas.files), pieces[..i])
    {
      assert pieces[..i + 1][..i] == pieces[..i];
      var hash := cas.hash(pieces[i]);
      var r := cas.PutVerified(hash, pieces[i]);
      whole := whole + pieces[i];
      chunks := chunks + [ChunkEntry(hash, Len32(|pieces[i]|))];
    }
    assert pieces[..|pieces|] == pieces;
    m := Manifest(cas.hash(whole), chunks);
  }

  /** Putting changes nothing that was there and stores every piece that was not. */
  lemma {:induction false} PutKeeps(hash: Bytes -> ChunkHash, files: map<ChunkHash, Bytes>, pieces: seq<Bytes>)
    ensures var out := Put(hash, files, pieces);
            && (forall h :: h in files ==> h in out && out[h] == files[h])
            && (forall h :: h in out && h !in files ==> hash(out[h]) == h)
            && (forall i :: 0 <= i < |pieces| ==> hash(pieces[i]) in out)
  {
    if pieces != [] {
      PutKeeps(hash, files, pieces[..|pieces| - 1]);
    }
  }

  /** A stored piece reads back unless a corrupt chunk already sat under its name. */
  lemma PutIsGood(hash: Bytes -> ChunkHash, files: map<ChunkHash, Bytes>, pieces: seq<Bytes>, i: nat)
    requires CollisionFree(hash) && i < |pieces|
    ensures var out, h := Put(hash, files, pieces), hash(pieces[i]);
            && (Good(hash, out, EntryOf(hash, pieces[i])) <==> !Corrupt(hash, files, h))
            && (Corrupt(hash, out, h) <==> Corrupt(hash, files, h))
            && (!Corrupt(hash, files, h) ==> out[h] == pieces[i])
  {
    PutKeeps(hash, files, pieces);
  }

  // ---------------------------------------------------------- the output file

  function ByteAt(s: Bytes, i: nat): Byte {
    if i < |s| then s[i] else 0
  }

  /** `n` bytes from `at`, zeros beyond the end. */
  function Window(s: Bytes, at: nat, n: nat): (w: Bytes)
    ensures |w| == n && forall i :: 0 <= i < n ==> w[i] == ByteAt(s, at + i)
  {
    seq<Byte>(n, i requires 0 <= i < n => ByteAt(s, at + i))
  }

  /** A file as the assembly sees it: bytes, a position, holes that read as zeros. */
  class OutFile {
    var contents: Bytes
    var pos: nat

    constructor (contents: Bytes)
      ensures this.contents == contents && pos == 0
    {
      this.contents := contents;
      pos := 0;
    }

    method Seek(to_: nat)
      modifies this
      ensures pos == to_ && contents == old(contents)
    {
      pos := to_;
    }

    method WriteAll(bytes: Bytes)
      modifies this
      ensures pos == old(pos) + |bytes|
      ensures forall i: nat :: ByteAt(contents, i) == if old(pos) <= i < pos then bytes[i - old(pos)] else ByteAt(old(contents), i)
    {
      var tail := if pos + |bytes| < |contents| then contents[pos + |bytes|..] else [];
      contents := Window(contents, 0, pos) + bytes + tail;
      pos := pos + |bytes|;
    }

    method SetLen(n: nat)
      modifies this
      ensures contents == Window(old(contents), 0, n) && pos == old(pos)
    {
      contents := Window(contents, 0, n);
    }
  }

  // ------------------------------------------------------------------ assembly

  predicate AllZero(bytes: Bytes) {
    forall i :: 0 <= i < |bytes| ==> bytes[i] == 0
  }

  /** What ends up in a file that held `start`: a hole shows what was there before. */
  function Overlay(start: Bytes, pieces: seq<Bytes>): (s: Bytes)
    ensures |s| == |Concat(pieces)|
  {
    if pieces == [] then []
    else
      var done, last := Overlay(start, pieces[..|pieces| - 1]), pieces[|pieces| - 1];
      done + if AllZero(last) then Window(start, |done|, |last|) else last
  }

  /** Wherever a piece is all zero, the file held zeros already. */
  predicate HolesClean(start: Bytes, pieces: seq<Bytes>) {
    pieces == [] ||
    (var init, last := pieces[..|pieces| - 1], pieces[|pieces| - 1];
     HolesClean(start, init) && (AllZero(last) ==> AllZero(Window(start, |Concat(init)|, |last|))))
  }

  /** The assembled bytes are the data exactly when no hole uncovers old bytes. */
  lemma {:induction false} OverlayIsData(start: Bytes, pieces: seq<Bytes>)
    ensures Overlay(start, pieces) == Concat(pieces) <==> HolesClean(start, pieces)
  {
    if pieces != [] {
      var init, last := pieces[..|pieces| - 1], pieces[|pieces| - 1];
      OverlayIsData(start, init);
      var done := Overlay(start, init);
      var tail := if AllZero(last) then Window(start, |done|, |last|) else last;
      if Overlay(start, pieces) == Concat(pieces) {
        assert (done + tail)[..|done|] == done && (Concat(init) + last)[..|done|] == Concat(init);
        assert (done + tail)[|done|..] == tail && (Concat(init) + last)[|done|..] == last;
      }
      if HolesClean(start, pieces) {
        assert tail == last;
      }
    }
  }

  lemma {:induction false} EmptyIsClean(pieces: seq<Bytes>)
    ensures HolesClean([], pieces)
  {
    if pieces != [] {
      EmptyIsClean(pieces[..|pieces| - 1]);
    }
  }

  function FileBytes(files: map<ChunkHash, Bytes>, chunks: seq<ChunkEntry>): seq<Bytes>
    requires forall i :: 0 <= i < |chunks| ==> chunks[i].hash in files
  {
    seq(|chunks|, i requires 0 <= i < |chunks| => files[chunks[i].hash])
  }

  ghost predicate AllGood(hash: Bytes -> ChunkHash, files: map<ChunkHash, Bytes>, chunks: seq<ChunkEntry>) {
    forall i :: 0 <= i < |chunks| ==> Good(hash, files, chunks[i])
  }

  /** `now` is `was` with `bytes` written at `offset`, or skipped over when all zero. */
  ghost predicate Emitted(was: Bytes, now: Bytes, offset: nat, bytes: Bytes) {
    forall i: nat {:trigger ByteAt(now, i)} ::
      ByteAt(now, i) == if offset <= i < offset + |bytes| && !AllZero(bytes) then bytes[i - offset] else ByteAt(was, i)
  }

  /** Emit one chunk: seek over zeros, write the rest. */
  method Emit(bytes: Bytes, out: OutFile, offset: nat) returns (next: nat)
    requires out.pos == offset
    modifies out
    ensures next == offset + |bytes| && out.pos == next
    ensures Emitted(old(out.contents), out.contents, offset, bytes)
  {
    next := offset + |bytes|;
    if AllZero(bytes) {
      out.Seek(next);
    } else {
      out.WriteAll(bytes);
    }
  }

  /** What byte `i` must be once `laid` is laid out over `start`. */
  function LaidByte(start: Bytes, laid: Bytes, i: nat): Byte {
    if i < |laid| then laid[i] else ByteAt(start, i)
  }

  ghost predicate LaidOut(contents: Bytes, start: Bytes, laid: Bytes) {
    forall i: nat {:trigger ByteAt(contents, i)} :: ByteAt(contents, i) == LaidByte(start, laid, i)
  }

  /** What one chunk adds to the layout. */
  function Strip(start: Bytes, at: nat, bytes: Bytes): (s: Bytes)
    ensures |s| == |bytes|
  {
    if AllZero(bytes) then Window(start, at, |bytes|) else bytes
  }

  lemma LayStep(was: Bytes, now: Bytes, start: Bytes, laid: Bytes, bytes: Bytes)
    requires LaidOut(was, start, laid) && Emitted(was, now, |laid|, bytes)
    ensures LaidOut(now, start, laid + Strip(start, |laid|, bytes))
  {
    var all := laid + Strip(start, |laid|, bytes);
    forall i: nat ensures ByteAt(now, i) == LaidByte(start, all, i) {
      assert ByteAt(was, i) == LaidByte(start, laid, i);
      if |laid| <= i < |all| {
        assert all[i] == Strip(start, |laid|, bytes)[i - |laid|];
      }
    }
  }

  lemma OverlayStep(start: Bytes, pieces: seq<Bytes>, bytes: Bytes)
    ensures var done := Overlay(start, pieces);
            Overlay(start, pieces + [bytes]) == done + Strip(start, |done|, bytes)
    ensures Concat(pieces + [bytes]) == Concat(pieces) + bytes
  {
    assert (pieces + [bytes])[..|pieces|] == pieces;
  }

  lemma Finish(contents: Bytes, start: Bytes, laid: Bytes)
    requires LaidOut(contents, start, laid)
    ensures Window(contents, 0, |laid|) == laid
  {
    forall i | 0 <= i < |laid| ensures Window(contents, 0, |laid|)[i] == laid[i] {
      assert ByteAt(contents, i) == LaidByte(start, laid, i);
    }
  }

  lemma OneMore(hash: Bytes -> ChunkHash, files: map<ChunkHash, Bytes>, chunks: seq<ChunkEntry>, i: nat)
    requires i < |chunks| && AllGood(hash, files, chunks[..i]) && Good(hash, files, chunks[i])
    ensures AllGood(hash, files, chunks[..i + 1])
    ensures FileBytes(files, chunks[..i + 1]) == FileBytes(files, chunks[..i]) + [files[chunks[i].hash]]
  {
    assert chunks[..i + 1] == chunks[..i] + [chunks[i]];
  }

  /**
   Stream the chunks into `out`. It succeeds exactly when every chunk is good,
   and then the file is the overlay of the chunks and the hash is theirs;
   otherwise it stops at the first bad chunk and drops that one if it is corrupt.
   */
  method AssembleFromCas(m: Manifest, cas: Cas, out: OutFile) returns (r: Outcome<ChunkHash>, ghost at: nat)
    requires out.pos == 0
    modifies cas, out
    ensures r.Ok? <==> AllGood(cas.hash, old(cas.files), m.chunks)
    ensures r.Ok? ==>
              var pieces := FileBytes(old(cas.files), m.chunks);
              out.contents == Overlay(old(out.contents), pieces) && r.value == cas.hash(Concat(pieces)) && cas.files == old(cas.files)
    ensures !r.Ok? ==> at < |m.chunks| && AllGood(cas.hash, old(cas.files), m.chunks[..at]) && !Good(cas.hash, old(cas.files), m.chunks[at])
    ensures !r.Ok? ==>
              var h := m.chunks[at].hash;
              cas.files == if Corrupt(cas.hash, old(cas.files), h) then old(cas.files) - {h} else old(cas.files)
  {
    var whole: Bytes := [];
    var offset := 0;
    ghost var pieces: seq<Bytes> := [];
    ghost var laid: Bytes := [];
    for i := 0 to |m.chunks|
      invariant cas.files == old(cas.files) && AllGood(cas.hash, cas.files, m.chunks[..i])
      invariant pieces == FileBytes(cas.files, m.chunks[..i]) && whole == Concat(pieces)
      invariant laid == Overlay(old(out.contents), pieces) && out.pos == offset == |laid|
      invariant LaidOut(out.contents, old(out.contents), laid)
    {
      var entry := m.chunks[i];
      at := i;
      var read := cas.Read(entry.hash);
      if !read.Ok? {
        return if read.Missing? then Missing else HashMismatch, i;
      }
      var bytes := read.value;
      if Len32(|bytes|) != entry.len {
        return HashMismatch, i;
      }
      OneMore(cas.hash, cas.files, m.chunks, i);
      OverlayStep(old(out.contents), pieces, bytes);
      ghost var was := out.contents;
      offset := Emit(bytes, out, offset);
      LayStep(was, out.contents, old(out.contents), laid, bytes);
      laid := laid + Strip(old(out.contents), |laid|, bytes);
      whole := whole + bytes;
      pieces := pieces + [bytes];
    }
    assert m.chunks[..|m.chunks|] == m.chunks;
    Finish(out.contents, old(out.contents), laid);
    out.SetLen(offset);
    return Ok(cas.hash(whole)), 0;
  }

  // --------------------------------------------------------------- round trips

  /** No piece already sits in the store under its own name with other bytes. */
  predicate Clean(hash: Bytes -> ChunkHash, files: map<ChunkHash, Bytes>, pieces: seq<Bytes>) {
    forall i :: 0 <= i < |pieces| ==> !Corrupt(hash, files, hash(pieces[i]))
  }

  /** After chunking, the manifest assembles exactly when the store was clean, and to the pieces themselves. */
  lemma ChunkedIsGood(hash: Bytes -> ChunkHash, files: map<ChunkHash, Bytes>, pieces: seq<Bytes>)
    requires CollisionFree(hash)
    ensures var out, chunks := Put(hash, files, pieces), ManifestOf(hash, pieces).chunks;
            && (AllGood(hash, out, chunks) <==> Clean(hash, files, pieces))
            && (Clean(hash, files, pieces) ==> FileBytes(out, chunks) == pieces)
            && (forall i :: 0 <= i < |chunks| ==> Good(hash, out, chunks[i]) || Corrupt(hash, out, chunks[i].hash))
  {
    var out, chunks := Put(hash, files, pieces), ManifestOf(hash, pieces).chunks;
    forall i | 0 <= i < |pieces|
      ensures chunks[i] == EntryOf(hash, pieces[i])
      ensures Good(hash, out, chunks[i]) <==> !Corrupt(hash, files, hash(pieces[i]))
      ensures Good(hash, out, chunks[i]) ==> out[chunks[i].hash] == pieces[i]
      ensures Good(hash, out, chunks[i]) || Corrupt(hash, out, chunks[i].hash)
    {
      PutIsGood(hash, files, pieces, i);
    }
  }

  /** The manifest names the whole and every piece in order; a length is exact below four gigabytes. */
  lemma ManifestMeans(hash: Bytes -> ChunkHash, pieces: seq<Bytes>)
    ensures var m := ManifestOf(hash, pieces);
            && m.contentHash == hash(Concat(pieces)) && |m.chunks| == |pieces|
            && forall i :: 0 <= i < |pieces| ==>
                 m.chunks[i].hash == hash(pieces[i]) && (|pieces[i]| < 4294967296 ==> m.chunks[i].len == |pieces[i]|)
  {
  }

  /** Chunk, then assemble into an empty file: the original bytes and their hash, for every split. */
  method RoundTrip(pieces: seq<Bytes>, cas: Cas, out: OutFile) returns (r: Outcome<ChunkHash>)
    requires CollisionFree(cas.hash) && out.contents == [] && out.pos == 0
    modifies cas, out
    ensures r.Ok? <==> Clean(cas.hash, old(cas.files), pieces)
    ensures r.Ok? ==> out.contents == Concat(pieces) && r.value == cas.hash(Concat(pieces))
    ensures !r.Ok? ==> CorruptAmong(cas.hash, cas.files, pieces) < CorruptAmong(cas.hash, old(cas.files), pieces)
  {
    var m := ChunkFileIntoCas(pieces, cas);
    ghost var files := cas.files;
    ChunkedIsGood(cas.hash, old(cas.files), pieces);
    CorruptAfterPut(cas.hash, old(cas.files), pieces);
    ghost var at: nat;
    r, at := AssembleFromCas(m, cas, out);
    if r.Ok? {
      EmptyIsClean(pieces);
      OverlayIsData([], pieces);
    } else {
      EvictionHeals(cas.hash, files, pieces, at);
    }
  }

  ghost function CorruptNames(hash: Bytes -> ChunkHash, files: map<ChunkHash, Bytes>, pieces: seq<Bytes>): set<ChunkHash> {
    set i | 0 <= i < |pieces| && Corrupt(hash, files, hash(pieces[i])) :: hash(pieces[i])
  }

  /** How many of the pieces' names hold corrupt chunks. */
  ghost function CorruptAmong(hash: Bytes -> ChunkHash, files: map<ChunkHash, Bytes>, pieces: seq<Bytes>): nat {
    |CorruptNames(hash, files, pieces)|
  }

  lemma CorruptAfterPut(hash: Bytes -> ChunkHash, files: map<ChunkHash, Bytes>, pieces: seq<Bytes>)
    requires CollisionFree(hash)
    ensures CorruptAmong(hash, Put(hash, files, pieces), pieces) == CorruptAmong(hash, files, pieces)
  {
    var out := Put(hash, files, pieces);
    forall i | 0 <= i < |pieces| ensures Corrupt(hash, out, hash(pieces[i])) <==> Corrupt(hash, files, hash(pieces[i])) {
      PutIsGood(hash, files, pieces, i);
    }
    assert CorruptNames(hash, out, pieces) == CorruptNames(hash, files, pieces);
  }

  lemma EvictionHeals(hash: Bytes -> ChunkHash, files: map<ChunkHash, Bytes>, pieces: seq<Bytes>, i: nat)
    requires i < |pieces| && Corrupt(hash, files, hash(pieces[i]))
    ensures CorruptAmong(hash, files - {hash(pieces[i])}, pieces) < CorruptAmong(hash, files, pieces)
  {
    var h := hash(pieces[i]);
    assert CorruptNames(hash, files - {h}, pieces) == CorruptNames(hash, files, pieces) - {h};
    assert h in CorruptNames(hash, files, pieces);
  }

  /** Retrying always gets there: each failure drops a corrupt chunk that the next pass stores afresh. */
  method RetryUntilAssembled(pieces: seq<Bytes>, cas: Cas) returns (out: OutFile, whole: ChunkHash)
    requires CollisionFree(cas.hash)
    modifies cas
    ensures out.contents == Concat(pieces) && whole == cas.hash(Concat(pieces))
  {
    out := new OutFile([]);
    var r := RoundTrip(pieces, cas, out);
    while !r.Ok?
      invariant r.Ok? ==> out.contents == Concat(pieces) && r.value == cas.hash(Concat(pieces))
      decreases !r.Ok?, CorruptAmong(cas.hash, cas.files, pieces)
    {
      out := new OutFile([]);
      r := RoundTrip(pieces, cas, out);
    }
    whole := r.value;
  }
}
