/**
 * Forward-error-correction recovery on the client (`expectedChunkSize` and
 * `tryRecoverFrameGroup` in client/js/network.js): a group of chunks with
 * its parity present and exactly one chunk missing gets the missing chunk
 * back as the parity XOR the other chunks.
 *
 * A pending frame is a value here; the caller writes the changed frame back
 * into `S.chunks`, where the source changes the shared object in place.
 */
module NetworkFec {
  import opened Bytes
  import opened ClientState

  // ---------------------------------------------------------------------
  // The shape of a pending frame
  // ---------------------------------------------------------------------

  /** The number of filled slots. */
  function Filled(parts: seq<Option<seq<byte>>>): (r: nat)
    ensures r <= |parts|
  {
    if |parts| == 0 then 0
    else Filled(parts[..|parts| - 1]) + (if parts[|parts| - 1].Some? then 1 else 0)
  }

  /** Filling or emptying one slot moves the count by one. */
  lemma {:induction false} FilledUpdate(parts: seq<Option<seq<byte>>>, i: nat, x: Option<seq<byte>>)
    requires i < |parts|
    ensures Filled(parts[i := x]) + (if parts[i].Some? then 1 else 0) ==
            Filled(parts) + (if x.Some? then 1 else 0)
  {
    var n := |parts|;
    if i < n - 1 {
      FilledUpdate(parts[..n - 1], i, x);
      assert parts[i := x][..n - 1] == parts[..n - 1][i := x];
    } else {
      assert parts[i := x][..n - 1] == parts[..n - 1];
    }
  }

  /** Every slot filled. */
  lemma {:induction false} FilledAll(parts: seq<Option<seq<byte>>>)
    ensures Filled(parts) == |parts| <==> forall i :: 0 <= i < |parts| ==> parts[i].Some?
  {
    if |parts| > 0 {
      FilledAll(parts[..|parts| - 1]);
      assert forall i :: 0 <= i < |parts| - 1 ==> parts[..|parts| - 1][i] == parts[i];
    }
  }

  /** The slot arrays have one entry per chunk, and the group size is positive. */
  predicate Shaped(f: PendingFrame)
  {
    |f.parts| == f.total && |f.partSizes| == f.total && f.fecGroupSize >= 1
  }

  /**
   * The bookkeeping a pending frame keeps: `received` counts the filled
   * slots, and `fecOrder` lists the parity groups once each, in the order
   * they arrived.
   */
  predicate Consistent(f: PendingFrame)
  {
    Shaped(f) && f.received == Filled(f.parts) &&
    f.fecParts.Keys == Elems(f.fecOrder) &&
    (forall a, b :: 0 <= a < b < |f.fecOrder| ==> f.fecOrder[a] != f.fecOrder[b])
  }

  // ---------------------------------------------------------------------
  // expectedChunkSize
  // ---------------------------------------------------------------------

  /**
   * `expectedChunkSize`: 0 outside the frame, the data chunk size before the
   * last chunk, and for the last chunk what the others leave of the frame,
   * or the data chunk size when they leave nothing.
   */
  function ExpectedChunkSize(f: PendingFrame, ci: nat): (r: int)
    ensures ci >= f.total ==> r == 0
    ensures ci + 1 < f.total ==> r == f.dataChunkSize
    ensures ci + 1 == f.total ==>
      (f.frameSize > (f.total - 1) * f.dataChunkSize ==> r == f.frameSize - (f.total - 1) * f.dataChunkSize) &&
      (f.frameSize <= (f.total - 1) * f.dataChunkSize ==> r == f.dataChunkSize)
  {
    if ci >= f.total then 0
    else if ci < f.total - 1 then f.dataChunkSize
    else
      var used := f.dataChunkSize * Max(0, f.total - 1);
      var remaining := f.frameSize - used;
      if remaining > 0 then remaining else f.dataChunkSize
  }

  // ---------------------------------------------------------------------
  // tryRecoverFrameGroup
  // ---------------------------------------------------------------------

  /** `Math.max(1, frame.fecGroupSize || C.FEC_GROUP_SIZE || 4)`. */
  function GroupSize(f: PendingFrame): (r: nat)
    ensures r >= 1
    ensures f.fecGroupSize >= 1 ==> r == f.fecGroupSize
  {
    Max(1, if f.fecGroupSize == 0 then FEC_GROUP_SIZE else f.fecGroupSize)
  }

  /** The empty slots of parts[lo..hi), in index order. */
  function Missing(parts: seq<Option<seq<byte>>>, lo: nat, hi: nat): (r: seq<nat>)
    requires lo <= hi <= |parts|
    ensures forall i {:trigger i in r} :: i in r <==> lo <= i < hi && parts[i].None?
    ensures forall k :: 0 <= k < |r| ==> lo <= r[k] < hi
    ensures Increasing(r)
    decreases hi - lo
  {
    if hi == lo then [] else Missing(parts, lo, hi - 1) + (if parts[hi - 1].None? then [hi - 1] else [])
  }

  /** The filled slots of parts[lo..hi) other than slot `skip`, in index order. */
  function Others(parts: seq<Option<seq<byte>>>, lo: nat, hi: nat, skip: nat): seq<seq<byte>>
    requires lo <= hi <= |parts|
    decreases hi - lo
  {
    if hi == lo then []
    else Others(parts, lo, hi - 1, skip) + (if hi - 1 != skip && parts[hi - 1].Some? then [parts[hi - 1].value] else [])
  }

  /** acc with its first min(|acc|, |p|) bytes XORed with p's (`recovered[j] ^= part[j]`). */
  function XorInto(acc: seq<byte>, p: seq<byte>): (r: seq<byte>)
    ensures |r| == |acc|
  {
    seq(|acc|, j requires 0 <= j < |acc| => if j < |p| then Xor(acc[j], p[j]) else acc[j])
  }

  /** acc XORed with each of ps in turn. */
  function XorAll(acc: seq<byte>, ps: seq<seq<byte>>): (r: seq<byte>)
    ensures |r| == |acc|
  {
    if |ps| == 0 then acc else XorInto(XorAll(acc, ps[..|ps| - 1]), ps[|ps| - 1])
  }

  /** Byte j of the folded XOR is the column XOR of the parity and the parts. */
  lemma {:induction false} XorAllColumn(fec: seq<byte>, ps: seq<seq<byte>>, size: nat, j: nat)
    requires size <= |fec| && j < size
    ensures XorAll(fec[..size], ps)[j] == XorColumn([fec] + ps, j)
  {
    if |ps| == 0 {
      assert [fec][..0] == [];
      XorUnits(fec[j]);
    } else {
      var init := ps[..|ps| - 1];
      XorAllColumn(fec, init, size, j);
      assert ([fec] + ps)[..|ps|] == [fec] + init;
      XorUnits(XorAll(fec[..size], init)[j]);
    }
  }

  /** The group that parity g covers: slots [start, end). */
  function GroupStart(f: PendingFrame, g: nat): nat
  {
    g * GroupSize(f)
  }

  function GroupEnd(f: PendingFrame, g: nat): nat
  {
    Min(GroupStart(f, g) + GroupSize(f), f.total)
  }

  /**
   * `tryRecoverFrameGroup` as a value: `None` where the source returns false
   * (no parity for g, a group past the frame, not exactly one empty slot, or
   * a chunk size that is not positive or exceeds the parity), otherwise the
   * frame with the empty slot filled.
   */
  function Recover(f: PendingFrame, g: nat): Option<PendingFrame>
    requires Shaped(f)
  {
    if g !in f.fecParts then None
    else
      var fec := f.fecParts[g];
      var start := GroupStart(f, g);
      if start >= f.total then None
      else
        var end := GroupEnd(f, g);
        var missing := Missing(f.parts, start, end);
        if |missing| != 1 then None
        else
          var mi := missing[0];
          var size := ExpectedChunkSize(f, mi);
          if size <= 0 || size > |fec| then None
          else
            var rec := XorAll(fec[..size], Others(f.parts, start, end, mi));
            Some(f.(parts := f.parts[mi := Some(rec)], partSizes := f.partSizes[mi := size],
                    received := f.received + 1, fecRecovered := f.fecRecovered + 1))
  }

  /** The conditions under which recovery succeeds, and the one slot it fills. */
  lemma RecoverWhen(f: PendingFrame, g: nat)
    requires Shaped(f)
    ensures Recover(f, g).Some? <==>
      g in f.fecParts && GroupStart(f, g) < f.total &&
      |Missing(f.parts, GroupStart(f, g), GroupEnd(f, g))| == 1 &&
      0 < ExpectedChunkSize(f, Missing(f.parts, GroupStart(f, g), GroupEnd(f, g))[0]) <= |f.fecParts[g]|
  {
  }

  /** A successful recovery fills the one empty slot of the group, whose other slots are all filled. */
  lemma RecoverSlot(f: PendingFrame, g: nat)
    requires Shaped(f) && Recover(f, g).Some?
    ensures var start, end := GroupStart(f, g), GroupEnd(f, g);
      var mi := Missing(f.parts, start, end)[0];
      var r := Recover(f, g).value;
      start <= mi < end && f.parts[mi].None? && r.parts[mi].Some? &&
      (forall i :: start <= i < end && i != mi ==> f.parts[i].Some?) &&
      (forall i :: 0 <= i < |f.parts| && i != mi ==> r.parts[i] == f.parts[i])
  {
    var start, end := GroupStart(f, g), GroupEnd(f, g);
    var missing := Missing(f.parts, start, end);
    var mi := missing[0];
    assert missing == [mi] && mi in missing;
    forall i | start <= i < end && i != mi
      ensures f.parts[i].Some?
    {
      assert (i in missing) == f.parts[i].None?;
    }
  }

  /**
   * The recovered chunk has `ExpectedChunkSize` bytes, each the XOR of the
   * parity byte and the other chunks' bytes, a chunk shorter than that
   * counting as zeros.
   */
  lemma RecoverBytes(f: PendingFrame, g: nat)
    requires Shaped(f) && Recover(f, g).Some?
    ensures var start, end := GroupStart(f, g), GroupEnd(f, g);
      var mi := Missing(f.parts, start, end)[0];
      var size := ExpectedChunkSize(f, mi);
      var r := Recover(f, g).value;
      mi < |r.parts| && r.parts[mi].Some? && |r.parts[mi].value| == size &&
      forall j :: 0 <= j < size ==>
        r.parts[mi].value[j] == XorColumn([f.fecParts[g]] + Others(f.parts, start, end, mi), j)
  {
    var start, end := GroupStart(f, g), GroupEnd(f, g);
    var mi := Missing(f.parts, start, end)[0];
    var size := ExpectedChunkSize(f, mi);
    var fec := f.fecParts[g];
    var others := Others(f.parts, start, end, mi);
    forall j | 0 <= j < size
      ensures XorAll(fec[..size], others)[j] == XorColumn([fec] + others, j)
    {
      XorAllColumn(fec, others, size, j);
    }
  }

  /**
   * Besides the slot, a recovery records the chunk's size and raises
   * `received` and `fecRecovered` by one; the frame's bookkeeping stays
   * consistent.
   */
  lemma RecoverCounts(f: PendingFrame, g: nat)
    requires Shaped(f) && Recover(f, g).Some?
    ensures var mi := Missing(f.parts, GroupStart(f, g), GroupEnd(f, g))[0];
      var r := Recover(f, g).value;
      r == f.(parts := r.parts, partSizes := f.partSizes[mi := ExpectedChunkSize(f, mi)],
              received := f.received + 1, fecRecovered := f.fecRecovered + 1)
    ensures Consistent(f) ==> Consistent(Recover(f, g).value)
  {
    var mi := Missing(f.parts, GroupStart(f, g), GroupEnd(f, g))[0];
    RecoverSlot(f, g);
    FilledUpdate(f.parts, mi, Recover(f, g).value.parts[mi]);
  }

  lemma {:induction false} MissingNone(parts: seq<Option<seq<byte>>>, lo: nat, hi: nat)
    requires lo <= hi <= |parts|
    requires forall i :: lo <= i < hi ==> parts[i].Some?
    ensures Missing(parts, lo, hi) == []
    decreases hi - lo
  {
    if hi > lo {
      MissingNone(parts, lo, hi - 1);
    }
  }

  /** When slot m is the group's only gap and c is what the parity rebuilds, recovery puts c there. */
  lemma RecoverFills(f: PendingFrame, g: nat, m: nat, c: seq<byte>)
    requires Shaped(f) && g in f.fecParts && GroupStart(f, g) < f.total
    requires Missing(f.parts, GroupStart(f, g), GroupEnd(f, g)) == [m]
    requires 0 < |c| == ExpectedChunkSize(f, m) <= |f.fecParts[g]|
    requires XorAll(f.fecParts[g][..|c|], Others(f.parts, GroupStart(f, g), GroupEnd(f, g), m)) == c
    ensures Recover(f, g).Some?
    ensures Recover(f, g).value.parts[m] == Some(c) && Recover(f, g).value.received == f.received + 1
  {
  }

  /** A range whose only empty slot is m lists just m. */
  lemma {:induction false} MissingSingle(parts: seq<Option<seq<byte>>>, lo: nat, hi: nat, m: nat)
    requires lo <= m < hi <= |parts| && parts[m].None?
    requires forall i :: lo <= i < hi && i != m ==> parts[i].Some?
    ensures Missing(parts, lo, hi) == [m]
    decreases hi - lo
  {
    if hi - 1 == m {
      MissingNone(parts, lo, m);
    } else {
      MissingSingle(parts, lo, hi - 1, m);
      assert Missing(parts, lo, hi) == Missing(parts, lo, hi - 1) + [];
    }
  }

  /** After a recovery the group has no empty slot, so trying it again fails. */
  lemma RecoverOnce(f: PendingFrame, g: nat)
    requires Shaped(f) && Recover(f, g).Some?
    ensures Shaped(Recover(f, g).value) && Recover(Recover(f, g).value, g).None?
  {
    RecoverSlot(f, g);
    var r := Recover(f, g).value;
    var start, end := GroupStart(f, g), GroupEnd(f, g);
    assert GroupStart(r, g) == start && GroupEnd(r, g) == end;
    MissingNone(r.parts, start, end);
  }

  // ---------------------------------------------------------------------
  // The method
  // ---------------------------------------------------------------------

  lemma XorIntoStep(acc: seq<byte>, p: seq<byte>, j: nat)
    requires j < |acc| && j < |p|
    ensures XorInto(acc, p[..j + 1]) == XorInto(acc, p[..j])[j := Xor(acc[j], p[j])]
  {
  }

  lemma XorIntoTruncated(acc: seq<byte>, p: seq<byte>)
    ensures XorInto(acc, p[..Min(|p|, |acc|)]) == XorInto(acc, p)
  {
  }

  /** The inner loop: `for (j = 0; j < min(part.byteLength, size); j++) recovered[j] ^= part[j]`. */
  method XorPart(buf: array<byte>, part: seq<byte>)
    modifies buf
    ensures buf[..] == XorInto(old(buf[..]), part)
  {
    var partLen := Min(|part|, buf.Length);
    ghost var acc := buf[..];
    for j := 0 to partLen
      invariant buf[..] == XorInto(acc, part[..j])
    {
      XorIntoStep(acc, part, j);
      buf[j] := Xor(buf[j], part[j]);
    }
    XorIntoTruncated(acc, part);
  }

  /** The scan for empty slots of the group. */
  method FindMissing(parts: seq<Option<seq<byte>>>, start: nat, end: nat) returns (missing: seq<nat>)
    requires start <= end <= |parts|
    ensures missing == Missing(parts, start, end)
  {
    missing := [];
    for i := start to end
      invariant missing == Missing(parts, start, i)
    {
      if parts[i].None? {
        missing := missing + [i];
      }
    }
  }

  /** `recovered.set(fec.subarray(0, size))` into a fresh zeroed array. */
  method CopyParity(fec: seq<byte>, size: nat) returns (recovered: array<byte>)
    requires size <= |fec|
    ensures fresh(recovered) && recovered[..] == fec[..size]
  {
    recovered := new byte[size](j => 0);
    for j := 0 to size
      invariant recovered[..j] == fec[..j]
    {
      recovered[j] := fec[j];
    }
  }

  /** One pass of the outer loop: slot i, unless it is the missing one, is XORed in. */
  method RebuildStep(recovered: array<byte>, parts: seq<Option<seq<byte>>>, start: nat, i: nat, mi: nat,
                     ghost acc: seq<byte>)
    requires start <= i < |parts|
    requires recovered[..] == XorAll(acc, Others(parts, start, i, mi))
    modifies recovered
    ensures recovered[..] == XorAll(acc, Others(parts, start, i + 1, mi))
  {
    ghost var others := Others(parts, start, i, mi);
    if i != mi && parts[i].Some? {
      assert Others(parts, start, i + 1, mi) == others + [parts[i].value];
      assert (others + [parts[i].value])[..|others|] == others;
      XorPart(recovered, parts[i].value);
    } else {
      assert Others(parts, start, i + 1, mi) == others;
    }
  }

  /** The XOR of the other chunks of the group into a copy of the parity. */
  method Rebuild(parts: seq<Option<seq<byte>>>, start: nat, end: nat, mi: nat, fec: seq<byte>, size: nat)
    returns (recovered: array<byte>)
    requires start <= end <= |parts| && size <= |fec|
    ensures fresh(recovered)
    ensures recovered[..] == XorAll(fec[..size], Others(parts, start, end, mi))
  {
    recovered := CopyParity(fec, size);
    for i := start to end
      invariant recovered[..] == XorAll(fec[..size], Others(parts, start, i, mi))
    {
      RebuildStep(recovered, parts, start, i, mi, fec[..size]);
    }
  }

  /** The recovering half of `tryRecoverFrameGroup`, once its checks have passed. */
  method FillMissing(f: PendingFrame, g: nat, start: nat, end: nat, mi: nat, size: nat)
    returns (f': PendingFrame)
    requires Shaped(f) && Recover(f, g).Some?
    requires start == GroupStart(f, g) && end == GroupEnd(f, g)
    requires mi == Missing(f.parts, start, end)[0] && size == ExpectedChunkSize(f, mi)
    ensures f' == Recover(f, g).value
  {
    var recovered := Rebuild(f.parts, start, end, mi, f.fecParts[g], size);
    f' := f.(parts := f.parts[mi := Some(recovered[..])],
             partSizes := f.partSizes[mi := size],
             received := f.received + 1, fecRecovered := f.fecRecovered + 1);
  }

  /**
   * `tryRecoverFrameGroup`: whether a chunk was recovered, and the frame
   * after the attempt.
   */
  method TryRecoverFrameGroup(f: PendingFrame, g: nat) returns (ok: bool, f': PendingFrame)
    requires Shaped(f)
    ensures ok <==> Recover(f, g).Some?
    ensures ok ==> f' == Recover(f, g).value
    ensures !ok ==> f' == f
  {
    f' := f;
    if g !in f.fecParts {
      return false, f;
    }
    var fec := f.fecParts[g];
    var groupSize := GroupSize(f);
    var start := g * groupSize;
    assert start == GroupStart(f, g);
    if start >= f.total {
      return false, f;
    }
    var end := Min(start + groupSize, f.total);
    var missing := FindMissing(f.parts, start, end);
    if |missing| != 1 {
      return false, f;
    }
    var missingIndex := missing[0];
    var recoveredSize := ExpectedChunkSize(f, missingIndex);
    if recoveredSize <= 0 || recoveredSize > |fec| {
      return false, f;
    }
    f' := FillMissing(f, g, start, end, missingIndex, recoveredSize);
    ok := true;
  }
}
