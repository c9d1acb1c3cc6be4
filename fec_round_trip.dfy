/**
 * The forward-error-correction round trip between src/webrtc.cpp and
 * client/js/network.js: when every chunk of a group but one has arrived,
 * together with the group's parity as `Send` computes it, the client's
 * `tryRecoverFrameGroup` puts back exactly the lost chunk.
 */
module FecRoundTrip {
  import opened Bytes
  import opened ClientState
  import opened NetworkFec
  import W = WebRtc

  /**
   * A pending frame for the frame `data` sent with payload size d, holding
   * the parity of group g and every chunk of that group except chunk m.
   */
  predicate HoldsAllBut(f: PendingFrame, data: seq<byte>, d: nat, g: nat, m: nat)
    requires 0 < d
  {
    var nch := W.NumChunks(|data|, d);
    Shaped(f) && f.total == nch && f.frameSize == |data| && f.dataChunkSize == d &&
    f.fecGroupSize == W.FEC_GROUP_SIZE &&
    g < W.NumGroups(nch) && W.GroupStart(g) <= m < W.GroupEnd(g, nch) && f.parts[m].None? &&
    (forall i :: W.GroupStart(g) <= i < W.GroupEnd(g, nch) && i != m ==> f.parts[i] == Some(W.Chunk(data, d, i))) &&
    g in f.fecParts && f.fecParts[g] == W.GroupParity(data, d, g)
  }

  /** A sequence with element k taken out. */
  function Without(ps: seq<seq<byte>>, k: nat): seq<seq<byte>>
  {
    if k < |ps| then ps[..k] + ps[k + 1..] else ps
  }

  /** Appending after the removed position keeps the removal; removing the appended element undoes it. */
  lemma WithoutSnoc(ps: seq<seq<byte>>, c: seq<byte>, k: nat)
    ensures k == |ps| ==> Without(ps + [c], k) == ps
    ensures k < |ps| ==> Without(ps + [c], k) == Without(ps, k) + [c]
    ensures k > |ps| ==> Without(ps + [c], k) == Without(ps, k) + [c]
  {
    if k < |ps| {
      assert (ps + [c])[..k] == ps[..k];
      assert (ps + [c])[k + 1..] == ps[k + 1..] + [c];
    }
  }

  /** One step of `Others` over a slot that holds chunk hi - 1 of the frame, or the lost slot. */
  lemma OthersStep(f: PendingFrame, data: seq<byte>, d: nat, g: nat, m: nat, hi: nat)
    requires 0 < d && HoldsAllBut(f, data, d, g, m)
    requires W.GroupStart(g) < hi <= W.GroupEnd(g, W.NumChunks(|data|, d))
    ensures hi - 1 == m ==> Others(f.parts, W.GroupStart(g), hi, m) == Others(f.parts, W.GroupStart(g), hi - 1, m)
    ensures hi - 1 != m ==> Others(f.parts, W.GroupStart(g), hi, m) == Others(f.parts, W.GroupStart(g), hi - 1, m) + [W.Chunk(data, d, hi - 1)]
  {
    if hi - 1 != m {
      assert f.parts[hi - 1] == Some(W.Chunk(data, d, hi - 1));
    }
  }

  /** The chunks the client XORs in are the group's chunks without the lost one. */
  lemma {:induction false} OthersAreRest(f: PendingFrame, data: seq<byte>, d: nat, g: nat, m: nat, hi: nat)
    requires 0 < d && HoldsAllBut(f, data, d, g, m)
    requires W.GroupStart(g) <= hi <= W.GroupEnd(g, W.NumChunks(|data|, d))
    ensures Others(f.parts, W.GroupStart(g), hi, m) == Without(W.Chunks(data, d, W.GroupStart(g), hi), m - W.GroupStart(g))
    decreases hi
  {
    var lo := W.GroupStart(g);
    if hi > lo {
      OthersAreRest(f, data, d, g, m, hi - 1);
      var prev := W.Chunks(data, d, lo, hi - 1);
      var c := W.Chunk(data, d, hi - 1);
      var k := m - lo;
      var before, after := Others(f.parts, lo, hi - 1, m), Others(f.parts, lo, hi, m);
      assert before == Without(prev, k);
      assert W.Chunks(data, d, lo, hi) == prev + [c];
      assert |prev| == hi - 1 - lo;
      OthersStep(f, data, d, g, m, hi);
      WithoutSnoc(prev, c, k);
      if hi - 1 == m {
        assert after == before == prev;
        assert Without(prev + [c], k) == prev;
      } else {
        assert after == before + [c];
        assert Without(prev + [c], k) == Without(prev, k) + [c];
      }
    }
  }

  /** The size the client expects for chunk m is the length the server gave it. */
  lemma ExpectedIsChunkLength(f: PendingFrame, data: seq<byte>, d: nat, m: nat)
    requires 0 < d && f.total == W.NumChunks(|data|, d) && f.frameSize == |data| && f.dataChunkSize == d
    requires m < f.total
    ensures ExpectedChunkSize(f, m) == |W.Chunk(data, d, m)|
  {
    W.ChunkLength(data, d, m);
    W.ChunkStartInRange(|data|, d, m);
    OffsetIsProduct(m, d);
  }

  /** Byte j of the rebuilt chunk is byte j of the lost chunk. */
  lemma RebuiltByte(chunks: seq<seq<byte>>, k: nat, j: nat, fec: seq<byte>)
    requires k < |chunks| && j < |chunks[k]| && j < |fec| && fec[j] == XorColumn(chunks, j)
    ensures XorColumn([fec] + Without(chunks, k), j) == chunks[k][j]
  {
    var rest := Without(chunks, k);
    XorColumnRemove(chunks, k, j);
    XorColumnCons(fec, rest, j);
    var x := XorColumn(rest, j);
    var c := chunks[k][j];
    XorAssoc(x, c, x);
    XorComm(c, x);
    XorAssoc(x, x, c);
    XorUnits(x);
    XorUnits(c);
  }

  /** With every chunk of the group but one held, that one is the group's only empty slot. */
  lemma OnlyMissing(f: PendingFrame, data: seq<byte>, d: nat, g: nat, m: nat)
    requires 0 < d && HoldsAllBut(f, data, d, g, m)
    ensures GroupStart(f, g) == W.GroupStart(g) && GroupEnd(f, g) == W.GroupEnd(g, W.NumChunks(|data|, d))
    ensures Missing(f.parts, GroupStart(f, g), GroupEnd(f, g)) == [m]
  {
    var nch := W.NumChunks(|data|, d);
    var start, end := W.GroupStart(g), W.GroupEnd(g, nch);
    assert GroupStart(f, g) == start && GroupEnd(f, g) == end;
    MissingSingle(f.parts, start, end, m);
  }

  /** The parity XORed with the chunks still held is the lost chunk. */
  lemma RebuiltChunk(f: PendingFrame, data: seq<byte>, d: nat, g: nat, m: nat)
    requires 0 < d && HoldsAllBut(f, data, d, g, m)
    ensures var cm := W.Chunk(data, d, m);
      var start, end := W.GroupStart(g), W.GroupEnd(g, W.NumChunks(|data|, d));
      |cm| <= |f.fecParts[g]| &&
      XorAll(f.fecParts[g][..|cm|], Others(f.parts, start, end, m)) == cm
  {
    var nch := W.NumChunks(|data|, d);
    var start, end := W.GroupStart(g), W.GroupEnd(g, nch);
    var chunks := W.Chunks(data, d, start, end);
    var k := m - start;
    W.ChunksAt(data, d, start, end, k);
    var cm := W.Chunk(data, d, m);
    var fec := f.fecParts[g];
    MaxLenFacts(chunks);
    W.ChunksMaxLen(data, d, start, end);
    assert |fec| == MaxLen(chunks) >= |cm|;
    OthersAreRest(f, data, d, g, m, end);
    var rec := XorAll(fec[..|cm|], Others(f.parts, start, end, m));
    forall j | 0 <= j < |cm|
      ensures rec[j] == cm[j]
    {
      XorAllColumn(fec, Others(f.parts, start, end, m), |cm|, j);
      RebuiltByte(chunks, k, j, fec);
    }
    assert rec == cm;
  }

  /**
   * The round trip: from every chunk of a group but one, and the group's
   * parity, recovery succeeds and restores the lost chunk byte for byte.
   */
  lemma RecoverLostChunk(f: PendingFrame, data: seq<byte>, d: nat, g: nat, m: nat)
    requires 0 < d && HoldsAllBut(f, data, d, g, m)
    ensures Recover(f, g).Some?
    ensures Recover(f, g).value.parts[m] == Some(W.Chunk(data, d, m))
    ensures Recover(f, g).value.received == f.received + 1
  {
    OnlyMissing(f, data, d, g, m);
    ExpectedIsChunkLength(f, data, d, m);
    RebuiltChunk(f, data, d, g, m);
    RecoverFills(f, g, m, W.Chunk(data, d, m));
  }
}
