/**
 * The audio worklet embedded in build/bin/Release/js/media.js: the
 * per-channel `RingBuffer` of samples and the buffering state of
 * `StreamAudioProcessor` (prebuffering, overflow trimming, underrun
 * counting, statistics reports).
 *
 * Samples are only copied (and, on the way out, scaled by the volume), so
 * they are modelled as exact `real`s. The ring's contents are the ghost
 * field `model`: one sequence per channel, oldest sample first.
 */
module AudioWorklet {
  import opened Bytes

  // ---------------------------------------------------------------------
  // Positions in the ring
  // ---------------------------------------------------------------------

  /** The slot k samples after slot a in a ring of n slots: `(a + k) % n`. */
  function Slot(a: int, k: int, n: int): (r: int)
    requires n > 0
    ensures 0 <= r < n
  {
    (a + k) % n
  }

  /** Adding a whole turn of the ring does not change the remainder. */
  lemma ModTurns(x: int, t: int, n: int)
    requires n > 0
    ensures (x + t * n) % n == x % n
  {
    var q := x / n;
    var r := x % n;
    assert x + t * n == (q + t) * n + r;
    DivUnit(x + t * n, q + t, r, n);
  }

  /** The quotient and remainder of x by n are the unique q, r with x == q*n + r and 0 <= r < n. */
  lemma DivUnit(x: int, q: int, r: int, n: int)
    requires n > 0 && x == q * n + r && 0 <= r < n
    ensures x % n == r
  {
    var q2 := x / n;
    var r2 := x % n;
    assert (q - q2) * n == r2 - r;
    if q > q2 {
      MulAtLeast(q - q2, n);
    } else if q < q2 {
      MulAtLeast(q2 - q, n);
    }
  }

  lemma MulAtLeast(d: int, n: int)
    requires d >= 1 && n > 0
    ensures d * n >= n
  {
  }

  /** Stepping from a slot is stepping from its start by the sum. */
  lemma SlotAdd(a: int, b: int, c: int, n: int)
    requires n > 0
    ensures Slot(Slot(a, b, n), c, n) == Slot(a, b + c, n)
  {
    var x := a + b;
    assert x == (x / n) * n + x % n;
    ModTurns(x % n + c, x / n, n);
    assert x % n + c + (x / n) * n == a + b + c;
  }

  /** Two steps less than a turn apart land on different slots. */
  lemma SlotsDiffer(a: int, j: int, k: int, n: int)
    requires n > 0 && j < k < j + n
    ensures Slot(a, j, n) != Slot(a, k, n)
  {
    SlotAdd(a, j, k - j, n);
    var s := Slot(a, j, n);
    var t := k - j;
    if s + t < n {
      DivUnit(s + t, 0, s + t, n);
    } else {
      DivUnit(s + t, 1, s + t - n, n);
    }
  }

  /** A whole turn lands on the same slot. */
  lemma SlotTurn(a: int, k: int, n: int)
    requires n > 0
    ensures Slot(a, k + n, n) == Slot(a, k, n)
  {
    ModTurns(a + k, 1, n);
  }

  // ---------------------------------------------------------------------
  // The ring's contents as values
  // ---------------------------------------------------------------------

  /** `src[i] || 0`: a sample past the end of the source reads as silence. */
  function SampleOf(src: seq<real>, i: nat): real
  {
    if i < |src| then src[i] else 0.0
  }

  /** `channelData[c] || channelData[0]`: a channel the source lacks repeats its first. */
  function SourceOf(data: seq<seq<real>>, c: nat): seq<real>
    requires |data| > 0
  {
    if c < |data| then data[c] else data[0]
  }

  /** The frames samples a write takes from one source channel. */
  function Input(src: seq<real>, frames: nat): (r: seq<real>)
    ensures |r| == frames
    ensures forall i :: 0 <= i < frames ==> r[i] == SampleOf(src, i)
  {
    seq(frames, i requires 0 <= i < frames => SampleOf(src, i))
  }

  /** The newest cap samples of s. */
  function Newest(s: seq<real>, cap: nat): (r: seq<real>)
    ensures |r| == Min(|s|, cap)
  {
    if |s| <= cap then s else s[|s| - cap..]
  }

  /** The contents after `write(channelData, frames)`: each channel gains its input, keeping the newest cap. */
  function Written(cs: seq<seq<real>>, data: seq<seq<real>>, frames: int, cap: nat): (r: seq<seq<real>>)
    requires |data| > 0
    ensures |r| == |cs|
  {
    if frames <= 0 then cs
    else seq(|cs|, c requires 0 <= c < |cs| => Newest(cs[c] + Input(SourceOf(data, c), frames), cap))
  }

  /** One channel of `read(output, frames)`: the oldest samples, then silence. */
  function Padded(s: seq<real>, frames: nat): (r: seq<real>)
    ensures |r| == frames
  {
    seq(frames, i requires 0 <= i < frames => if i < |s| then s[i] else 0.0)
  }

  /** What `read(output, frames)` writes into the output, channel by channel. */
  function ReadOut(cs: seq<seq<real>>, frames: nat): (r: seq<seq<real>>)
    ensures |r| == |cs|
  {
    seq(|cs|, c requires 0 <= c < |cs| => Padded(cs[c], frames))
  }

  /** The contents after the n oldest samples of every channel are consumed. */
  function Dropped(cs: seq<seq<real>>, n: nat): (r: seq<seq<real>>)
    ensures |r| == |cs|
  {
    seq(|cs|, c requires 0 <= c < |cs| => cs[c][Min(n, |cs[c]|)..])
  }

  /** ch empty channels. */
  function Empty(ch: nat): (r: seq<seq<real>>)
    ensures |r| == ch
  {
    seq(ch, _ => [])
  }

  /** Every channel holds the same number of samples. */
  predicate Even(cs: seq<seq<real>>, len: nat)
  {
    forall c :: 0 <= c < |cs| ==> |cs[c]| == len
  }

  /** Consuming nothing leaves the contents as they are. */
  lemma NothingDropped(cs: seq<seq<real>>)
    ensures Dropped(cs, 0) == cs
  {
    forall c | 0 <= c < |cs|
      ensures Dropped(cs, 0)[c] == cs[c]
    {
      assert cs[c][0..] == cs[c];
    }
  }

  /**
   * Where sample k of the contents after a write sits: an old sample that
   * survived is in a slot the write did not reach; a new one is in the
   * slot the write put it in.
   */
  lemma WriteIndex(rp: int, avail: int, frames: int, cap: int, k: int)
    requires 0 < cap && 0 <= rp < cap && 0 <= avail <= cap && frames > 0
    requires 0 <= k < Min(avail + frames, cap)
    ensures var ov := Max(0, avail + frames - cap);
      ov + k < avail ==>
        frames <= cap - avail + ov + k < cap &&
        Slot(Slot(rp, ov, cap), k, cap) == Slot(Slot(rp, avail, cap), cap - avail + ov + k, cap) &&
        Slot(Slot(rp, ov, cap), k, cap) == Slot(rp, ov + k, cap)
    ensures var ov := Max(0, avail + frames - cap);
      ov + k >= avail ==>
        Max(0, frames - cap) <= ov + k - avail < frames &&
        Slot(Slot(rp, ov, cap), k, cap) == Slot(Slot(rp, avail, cap), ov + k - avail, cap)
  {
    var ov := Max(0, avail + frames - cap);
    SlotAdd(rp, ov, k, cap);
    if ov + k < avail {
      SlotAdd(rp, avail, cap - avail + ov + k, cap);
      SlotTurn(rp, ov + k, cap);
    } else {
      SlotAdd(rp, avail, ov + k - avail, cap);
    }
  }

  // ---------------------------------------------------------------------
  // RingBuffer
  // ---------------------------------------------------------------------

  /** `RingBuffer`: ch rows of cap samples, a read slot, a write slot and a count. */
  class RingBuffer {
    const ch: nat
    const cap: nat
    const bufs: array2<real>
    var rp: int
    var wp: int
    var avail: int
    ghost var model: seq<seq<real>>

    /** The write slot follows the avail samples from the read slot, and they are the model. */
    ghost predicate Valid()
      reads this, bufs
    {
      bufs.Length0 == ch && bufs.Length1 == cap && 0 < cap &&
      0 <= rp < cap && 0 <= avail <= cap && wp == Slot(rp, avail, cap) &&
      |model| == ch && Even(model, avail) &&
      (forall c, k :: 0 <= c < ch && 0 <= k < avail ==> model[c][k] == bufs[c, Slot(rp, k, cap)])
    }

    /** `new RingBuffer(channels, capacity)`: zeroed rows, nothing buffered. */
    constructor(channels: nat, capacity: nat)
      requires capacity > 0
      ensures Valid() && fresh(bufs)
      ensures ch == channels && cap == capacity && model == Empty(channels) && avail == 0
    {
      ch := channels;
      cap := capacity;
      bufs := new real[channels, capacity]((_, _) => 0.0);
      rp := 0;
      wp := 0;
      avail := 0;
      model := Empty(channels);
    }

    /**
     * The inner loop of `write` for channel c: sample j of src goes to slot
     * w + j; a write longer than the ring overwrites its own start, so the
     * last cap samples are the ones that stay.
     */
    method FillChannel(c: nat, src: seq<real>, w: int, frames: nat)
      requires bufs.Length0 == ch && bufs.Length1 == cap && 0 < cap && c < ch
      modifies bufs
      ensures forall d, p :: 0 <= d < ch && d != c && 0 <= p < cap ==> bufs[d, p] == old(bufs[d, p])
      ensures forall j :: Max(0, frames - cap) <= j < frames ==> bufs[c, Slot(w, j, cap)] == SampleOf(src, j)
      ensures forall q :: frames <= q < cap ==> bufs[c, Slot(w, q, cap)] == old(bufs[c, Slot(w, q, cap)])
    {
      var i := 0;
      while i < frames
        invariant 0 <= i <= frames
        invariant forall d, p :: 0 <= d < ch && d != c && 0 <= p < cap ==> bufs[d, p] == old(bufs[d, p])
        invariant forall j :: Max(0, i - cap) <= j < i ==> bufs[c, Slot(w, j, cap)] == SampleOf(src, j)
        invariant forall q :: i <= q < cap ==> bufs[c, Slot(w, q, cap)] == old(bufs[c, Slot(w, q, cap)])
      {
        forall q | i < q < cap
          ensures Slot(w, i, cap) != Slot(w, q, cap)
        {
          SlotsDiffer(w, i, q, cap);
        }
        FillOne(c, src, w, i);
        i := i + 1;
      }
    }

    /** One step of the inner loop of `write`: slot w + i gets sample i, and no other slot changes. */
    method FillOne(c: nat, src: seq<real>, w: int, i: nat)
      requires bufs.Length0 == ch && bufs.Length1 == cap && 0 < cap && c < ch
      requires forall j :: Max(0, i - cap) <= j < i ==> bufs[c, Slot(w, j, cap)] == SampleOf(src, j)
      modifies bufs
      ensures forall d, p :: 0 <= d < ch && 0 <= p < cap && (d != c || p != Slot(w, i, cap)) ==>
        bufs[d, p] == old(bufs[d, p])
      ensures forall j :: Max(0, i + 1 - cap) <= j < i + 1 ==> bufs[c, Slot(w, j, cap)] == SampleOf(src, j)
    {
      bufs[c, Slot(w, i, cap)] := SampleOf(src, i);
      forall j | Max(0, i + 1 - cap) <= j < i
        ensures bufs[c, Slot(w, j, cap)] == SampleOf(src, j)
      {
        SlotsDiffer(w, j, i, cap);
      }
    }

    /** The channel loop of `write`: every channel c takes its source's samples from slot w on. */
    method FillSamples(data: seq<seq<real>>, w: int, frames: nat)
      requires bufs.Length0 == ch && bufs.Length1 == cap && 0 < cap && |data| > 0
      modifies bufs
      ensures forall d, j :: 0 <= d < ch && Max(0, frames - cap) <= j < frames ==>
        bufs[d, Slot(w, j, cap)] == SampleOf(SourceOf(data, d), j)
      ensures forall d, q :: 0 <= d < ch && frames <= q < cap ==>
        bufs[d, Slot(w, q, cap)] == old(bufs[d, Slot(w, q, cap)])
    {
      var c := 0;
      while c < ch
        invariant 0 <= c <= ch
        invariant forall d, j :: 0 <= d < c && Max(0, frames - cap) <= j < frames ==>
          bufs[d, Slot(w, j, cap)] == SampleOf(SourceOf(data, d), j)
        invariant forall d, q :: 0 <= d < c && frames <= q < cap ==>
          bufs[d, Slot(w, q, cap)] == old(bufs[d, Slot(w, q, cap)])
        invariant forall d, p :: c <= d < ch && 0 <= p < cap ==> bufs[d, p] == old(bufs[d, p])
      {
        FillChannel(c, SourceOf(data, c), w, frames);
        c := c + 1;
      }
    }

    /**
     * The channel loop of `write` after the read slot has moved past the
     * overwritten samples: the new samples are in place and the old ones
     * that survive are where they were.
     */
    method FillAll(data: seq<seq<real>>, w: int, frames: nat, ghost m0: seq<seq<real>>, ghost r0: int, ghost a0: int)
      requires bufs.Length0 == ch && bufs.Length1 == cap && 0 < cap && |data| > 0 && frames > 0
      requires 0 <= r0 < cap && 0 <= a0 <= cap && |m0| == ch && Even(m0, a0) && w == Slot(r0, a0, cap)
      requires forall d, k :: 0 <= d < ch && 0 <= k < a0 ==> m0[d][k] == bufs[d, Slot(r0, k, cap)]
      modifies bufs
      ensures forall d, j :: 0 <= d < ch && Max(0, frames - cap) <= j < frames ==>
        bufs[d, Slot(Slot(r0, a0, cap), j, cap)] == SampleOf(SourceOf(data, d), j)
      ensures forall d, k :: 0 <= d < ch && Max(0, a0 + frames - cap) <= k < a0 ==>
        bufs[d, Slot(r0, k, cap)] == m0[d][k]
    {
      FillSamples(data, w, frames);
      forall d, k | 0 <= d < ch && Max(0, a0 + frames - cap) <= k < a0
        ensures bufs[d, Slot(r0, k, cap)] == m0[d][k]
      {
        var q := cap - a0 + k;
        SlotAdd(r0, a0, q, cap);
        SlotTurn(r0, k, cap);
        assert Slot(w, q, cap) == Slot(r0, k, cap);
        assert frames <= q < cap;
      }
    }

    /**
     * `write(channelData, frames)`: a non-positive count writes nothing;
     * otherwise the oldest samples that do not fit are overwritten (the
     * read slot moves past them), every channel takes frames samples, and
     * the write slot and count advance.
     */
    method Write(data: seq<seq<real>>, frames: int) returns (written: nat, overflow: nat)
      requires Valid() && |data| > 0
      modifies this, bufs
      ensures Valid()
      ensures model == Written(old(model), data, frames, cap)
      ensures written == Max(frames, 0)
      ensures overflow == if frames <= 0 then 0 else Max(0, old(avail) + frames - cap)
      ensures avail == if frames <= 0 then old(avail) else Min(old(avail) + frames, cap)
    {
      if frames <= 0 {
        return 0, 0;
      }
      ghost var m0 := model;
      ghost var r0 := rp;
      ghost var a0 := avail;
      overflow := 0;
      var space := cap - avail;
      if frames > space {
        overflow := frames - space;
        rp := Slot(rp, overflow, cap);
        avail := avail - overflow;
      } else {
        DivUnit(rp, 0, rp, cap);
      }
      assert overflow == Max(0, a0 + frames - cap) && rp == Slot(r0, overflow, cap);
      var toWrite := Min(frames, cap - avail);
      assert toWrite == frames;
      FillAll(data, wp, toWrite, m0, r0, a0);
      Relinked(this, data, frames, m0, r0, a0);
      wp := Slot(wp, toWrite, cap);
      avail := avail + toWrite;
      model := Written(m0, data, frames, cap);
      written := toWrite;
      SlotAdd(r0, a0, frames, cap);
      SlotAdd(r0, overflow, a0 + frames - overflow, cap);
    }

    /** The n oldest samples of every channel are consumed: the read slot and count move past them. */
    method Consume(n: nat)
      requires Valid() && n <= avail
      modifies this
      ensures Valid() && model == Dropped(old(model), n)
      ensures rp == Slot(old(rp), n, cap) && avail == old(avail) - n && wp == old(wp)
    {
      ghost var r0 := rp;
      ghost var m0 := model;
      rp := Slot(rp, n, cap);
      avail := avail - n;
      model := Dropped(model, n);
      SlotAdd(r0, n, avail, cap);
      forall c, k | 0 <= c < ch && 0 <= k < avail
        ensures model[c][k] == bufs[c, Slot(rp, k, cap)]
      {
        SlotAdd(r0, n, k, cap);
        assert model[c][k] == m0[c][n + k];
      }
    }

    /** One channel of `read`: the first toRead samples from the read slot, then silence up to frames. */
    method ReadChannel(c: nat, frames: nat, toRead: nat) returns (row: seq<real>)
      requires Valid() && c < ch && toRead == Min(frames, avail)
      ensures row == Padded(model[c], frames)
    {
      row := [];
      var i := 0;
      while i < frames
        invariant 0 <= i <= frames && |row| == i
        invariant forall j :: 0 <= j < i ==> row[j] == Padded(model[c], frames)[j]
      {
        row := row + [if i < toRead then bufs[c, Slot(rp, i, cap)] else 0.0];
        i := i + 1;
      }
    }

    /** The output of `read`, channel by channel. */
    method ReadRows(frames: nat, toRead: nat) returns (out: seq<seq<real>>)
      requires Valid() && toRead == Min(frames, avail)
      ensures out == ReadOut(model, frames)
    {
      out := [];
      var c := 0;
      while c < ch
        invariant 0 <= c <= ch && |out| == c
        invariant forall d :: 0 <= d < c ==> out[d] == Padded(model[d], frames)
      {
        var row := ReadChannel(c, frames, toRead);
        out := out + [row];
        c := c + 1;
      }
    }

    /**
     * `read(output, frames)`: every channel of the output gets the oldest
     * min(frames, length) samples followed by silence, and those samples
     * are consumed.
     */
    method Read(frames: nat) returns (out: seq<seq<real>>, read: nat)
      requires Valid()
      modifies this
      ensures Valid()
      ensures read == Min(frames, old(avail))
      ensures out == ReadOut(old(model), frames)
      ensures model == Dropped(old(model), read) && wp == old(wp) && avail == old(avail) - read
    {
      var toRead := Min(frames, avail);
      out := ReadRows(frames, toRead);
      if toRead > 0 {
        Consume(toRead);
      } else {
        NothingDropped(model);
      }
      read := toRead;
    }

    /** `skip(n)`: the min(n, length) oldest samples are dropped, and that count is returned. */
    method Skip(n: int) returns (skipped: int)
      requires Valid()
      modifies this
      ensures Valid()
      ensures skipped == Min(n, old(avail))
      ensures model == Dropped(old(model), Max(0, skipped)) && wp == old(wp)
      ensures avail == old(avail) - Max(0, skipped)
    {
      var toSkip := Min(n, avail);
      if toSkip > 0 {
        Consume(toSkip);
      } else {
        NothingDropped(model);
      }
      skipped := toSkip;
    }

    /** `clear()`: both slots back to 0 and nothing buffered. */
    method Clear()
      requires Valid()
      modifies this
      ensures Valid() && model == Empty(ch) && avail == 0
    {
      rp := 0;
      wp := 0;
      avail := 0;
      model := Empty(ch);
    }
  }

  /**
   * After the channel loop of `write`, sample k of every channel of the
   * new contents is in slot k from the new read slot.
   */
  lemma Relinked(b: RingBuffer, data: seq<seq<real>>, frames: int, m0: seq<seq<real>>, r0: int, a0: int)
    requires b.bufs.Length0 == b.ch && b.bufs.Length1 == b.cap && 0 < b.cap && |data| > 0 && frames > 0
    requires 0 <= r0 < b.cap && 0 <= a0 <= b.cap && |m0| == b.ch && Even(m0, a0)
    requires forall d, j :: 0 <= d < b.ch && Max(0, frames - b.cap) <= j < frames ==>
      b.bufs[d, Slot(Slot(r0, a0, b.cap), j, b.cap)] == SampleOf(SourceOf(data, d), j)
    requires forall d, k :: 0 <= d < b.ch && Max(0, a0 + frames - b.cap) <= k < a0 ==>
      b.bufs[d, Slot(r0, k, b.cap)] == m0[d][k]
    ensures var ov := Max(0, a0 + frames - b.cap);
      forall c, k :: 0 <= c < b.ch && 0 <= k < Min(a0 + frames, b.cap) ==>
        Written(m0, data, frames, b.cap)[c][k] == b.bufs[c, Slot(Slot(r0, ov, b.cap), k, b.cap)]
  {
    var cap := b.cap;
    var ov := Max(0, a0 + frames - cap);
    var rp := Slot(r0, ov, cap);
    var w := Slot(r0, a0, cap);
    forall c, k | 0 <= c < b.ch && 0 <= k < Min(a0 + frames, cap)
      ensures Written(m0, data, frames, cap)[c][k] == b.bufs[c, Slot(rp, k, cap)]
    {
      WriteIndex(r0, a0, frames, cap, k);
      var whole := m0[c] + Input(SourceOf(data, c), frames);
      assert Written(m0, data, frames, cap)[c] == Newest(whole, cap);
      assert Newest(whole, cap)[k] == whole[ov + k];
      if ov + k < a0 {
        assert whole[ov + k] == m0[c][ov + k];
        assert b.bufs[c, Slot(r0, ov + k, cap)] == m0[c][ov + k];
      } else {
        var j := ov + k - a0;
        assert whole[ov + k] == SampleOf(SourceOf(data, c), j);
        assert b.bufs[c, Slot(w, j, cap)] == SampleOf(SourceOf(data, c), j);
      }
    }
  }

  // ---------------------------------------------------------------------
  // What the ring promises, on its contents
  // ---------------------------------------------------------------------

  /** Every channel's input to one write. */
  function Inputs(data: seq<seq<real>>, ch: nat, frames: nat): (r: seq<seq<real>>)
    requires |data| > 0
    ensures |r| == ch && Even(r, frames)
  {
    seq(ch, c requires 0 <= c < ch => Input(SourceOf(data, c), frames))
  }

  /**
   * A write keeps every channel the same length: min(length + frames, cap).
   * Samples are only lost to overflow, and then exactly the oldest
   * length + frames - cap of them, so kept plus overflowed is all of them.
   */
  lemma WriteLength(cs: seq<seq<real>>, len: nat, data: seq<seq<real>>, frames: int, cap: nat)
    requires |data| > 0 && Even(cs, len) && len <= cap
    ensures Even(Written(cs, data, frames, cap), Min(len + Max(frames, 0), cap))
    ensures frames > 0 ==> Min(len + frames, cap) + Max(0, len + frames - cap) == len + frames
    ensures forall c :: 0 <= c < |cs| && frames > 0 ==>
      Written(cs, data, frames, cap)[c] == (cs[c] + Input(SourceOf(data, c), frames))[Max(0, len + frames - cap)..]
  {
    if frames > 0 {
      forall c | 0 <= c < |cs|
        ensures |Written(cs, data, frames, cap)[c]| == Min(len + frames, cap)
      {
        assert |cs[c] + Input(SourceOf(data, c), frames)| == len + frames;
      }
    }
  }

  /**
   * First in, first out: frames samples written into an empty ring come
   * back, in order, from a read of frames samples, which leaves it empty.
   */
  lemma {:induction false} FifoRoundTrip(ch: nat, data: seq<seq<real>>, frames: nat, cap: nat)
    requires |data| > 0 && 0 < frames <= cap
    ensures ReadOut(Written(Empty(ch), data, frames, cap), frames) == Inputs(data, ch, frames)
    ensures Dropped(Written(Empty(ch), data, frames, cap), frames) == Empty(ch)
  {
    var after := Written(Empty(ch), data, frames, cap);
    forall c | 0 <= c < ch
      ensures after[c] == Inputs(data, ch, frames)[c]
    {
      var x := Input(SourceOf(data, c), frames);
      assert Empty(ch)[c] + x == x;
      assert after[c] == Newest(x, cap);
    }
    forall c | 0 <= c < ch
      ensures ReadOut(after, frames)[c] == Inputs(data, ch, frames)[c]
    {
      assert ReadOut(after, frames)[c] == Padded(after[c], frames);
    }
    forall c | 0 <= c < ch
      ensures Dropped(after, frames)[c] == Empty(ch)[c]
    {
      assert |after[c]| == frames;
    }
  }

  /**
   * A read splits every channel: what was output (its first min(frames,
   * length) samples) followed by what is left is the channel as it was,
   * and the rest of the output is silence.
   */
  lemma ReadSplits(cs: seq<seq<real>>, len: nat, frames: nat)
    requires Even(cs, len)
    ensures forall c :: 0 <= c < |cs| ==>
      ReadOut(cs, frames)[c][..Min(frames, len)] + Dropped(cs, Min(frames, len))[c] == cs[c]
    ensures forall c, i :: 0 <= c < |cs| && Min(frames, len) <= i < frames ==> ReadOut(cs, frames)[c][i] == 0.0
    ensures Even(Dropped(cs, Min(frames, len)), len - Min(frames, len))
  {
    var n := Min(frames, len);
    forall c | 0 <= c < |cs|
      ensures ReadOut(cs, frames)[c][..n] + Dropped(cs, n)[c] == cs[c]
    {
      assert ReadOut(cs, frames)[c][..n] == cs[c][..n];
      assert cs[c][..n] + cs[c][n..] == cs[c];
    }
  }

  // ---------------------------------------------------------------------
  // StreamAudioProcessor
  // ---------------------------------------------------------------------

  const CHANNELS: nat := 2
  const CAPACITY: nat := 9600
  /** Samples kept after an overflow trim (100 ms at 48 kHz). */
  const MAX_BUFFER: nat := 4800
  /** A trim happens once more than MAX_BUFFER + TARGET samples are buffered. */
  const TARGET: nat := 2400
  /** Playback starts once this many samples are buffered (30 ms). */
  const PREBUF_THRESHOLD: nat := 1440
  /** Consecutive underruns that send the processor back to prebuffering. */
  const UNDERRUN_LIMIT: nat := 5
  /** Processed samples between two statistics reports. */
  const REPORT_INTERVAL: nat := 4800

  /** The processor's counters and flags, and the ring's length. */
  datatype ProcView = ProcView(
    prebuffering: bool, volume: real, muted: bool,
    samplesProcessed: int, underruns: int, overflows: int,
    lastReport: int, consecutiveUnderruns: int, length: int)

  /** The `stats` message: buffered milliseconds and the counters since the last report. */
  datatype Stats = Stats(bufferMs: real, underruns: int, overflows: int)

  /** The state after the constructor. */
  function Initial(): (v: ProcView)
    ensures Sane(v) && v.prebuffering && v.length == 0
  {
    ProcView(true, 1.0, false, 0, 0, 0, 0, 0, 0)
  }

  /** The bounds every handler keeps. */
  predicate Sane(v: ProcView)
  {
    0.0 <= v.volume <= 1.0 && 0 <= v.length <= CAPACITY &&
    0 <= v.consecutiveUnderruns < UNDERRUN_LIMIT &&
    0 <= v.underruns && 0 <= v.overflows
  }

  /** Whether an `audio` message first trims the ring to MAX_BUFFER samples. */
  predicate Trims(len: int)
  {
    len > MAX_BUFFER + TARGET
  }

  /** The ring's length after the trim of an `audio` message. */
  function TrimmedLength(len: int): int
  {
    if Trims(len) then MAX_BUFFER else len
  }

  /** The overflow trim of an `audio` message, counted as one overflow. */
  function TrimView(v: ProcView): (r: ProcView)
  {
    v.(length := TrimmedLength(v.length), overflows := v.overflows + if Trims(v.length) then 1 else 0)
  }

  /** The samples a write of frames into a ring holding len overwrites. */
  function WriteOverflow(len: int, frames: int): int
  {
    if frames <= 0 then 0 else Max(0, len + frames - CAPACITY)
  }

  /** The write of an `audio` message: an overwrite counts as one overflow, any sample ends an underrun streak. */
  function Stored(v: ProcView, frames: int): (r: ProcView)
  {
    var len := v.length - WriteOverflow(v.length, frames) + Max(frames, 0);
    v.(length := len,
       overflows := v.overflows + if WriteOverflow(v.length, frames) > 0 then 1 else 0,
       consecutiveUnderruns := if frames > 0 then 0 else v.consecutiveUnderruns,
       prebuffering := v.prebuffering && len < PREBUF_THRESHOLD)
  }

  /** The `audio` message's effect on the counters and length. */
  function OnAudio(v: ProcView, frames: int): (r: ProcView)
  {
    Stored(TrimView(v), frames)
  }

  /** The `audio` message's effect on the ring's contents. */
  function AudioContents(cs: seq<seq<real>>, len: int, data: seq<seq<real>>, frames: int): (r: seq<seq<real>>)
    requires |data| > 0
    ensures |r| == |cs|
  {
    Written(if Trims(len) then Dropped(cs, len - MAX_BUFFER) else cs, data, frames, CAPACITY)
  }

  /** `volume`: the gain, clamped to [0, 1]. */
  function OnVolume(v: ProcView, x: real): (r: ProcView)
  {
    v.(volume := if x > 1.0 then 1.0 else if x < 0.0 then 0.0 else x)
  }

  /** `clear`: the ring and the counters since the last report are reset, and prebuffering restarts. */
  function OnClear(v: ProcView): (r: ProcView)
  {
    v.(length := 0, underruns := 0, overflows := 0, consecutiveUnderruns := 0, prebuffering := true)
  }

  /** `process` outputs silence and reads nothing while muted or prebuffering. */
  predicate Silent(v: ProcView)
  {
    v.muted || v.prebuffering
  }

  /** ch channels of frames zero samples. */
  function Zeros(ch: nat, frames: nat): (r: seq<seq<real>>)
    ensures |r| == ch && Even(r, frames)
  {
    seq(ch, _ => seq(frames, _ => 0.0))
  }

  /** Every sample multiplied by the volume, unless it is 1. */
  function Scaled(out: seq<seq<real>>, volume: real): (r: seq<seq<real>>)
    ensures |r| == |out|
  {
    if volume == 1.0 then out
    else seq(|out|, c requires 0 <= c < |out| => Times(out[c], volume))
  }

  /** One channel multiplied by the volume. */
  function Times(row: seq<real>, volume: real): (r: seq<real>)
    ensures |r| == |row| && forall i :: 0 <= i < |row| ==> r[i] == row[i] * volume
  {
    seq(|row|, i requires 0 <= i < |row| => row[i] * volume)
  }

  /** What `process` writes into its two output channels. */
  function ProcessOutput(v: ProcView, cs: seq<seq<real>>, frames: nat): (r: seq<seq<real>>)
  {
    if Silent(v) then Zeros(CHANNELS, frames) else Scaled(ReadOut(cs, frames), v.volume)
  }

  /** The samples `process` consumes from the ring. */
  function ProcessRead(v: ProcView, frames: nat): int
  {
    if Silent(v) then 0 else Min(frames, v.length)
  }

  /** The underrun accounting of `process` after a read that came up short (or not). */
  function Counted(v: ProcView, under: bool, frames: nat): (r: ProcView)
  {
    var streak := if under then v.consecutiveUnderruns + 1 else 0;
    var rebuffer := streak >= UNDERRUN_LIMIT;
    v.(underruns := if under then v.underruns + 1 else v.underruns,
       consecutiveUnderruns := if rebuffer then 0 else streak,
       prebuffering := v.prebuffering || rebuffer,
       samplesProcessed := v.samplesProcessed + frames)
  }

  /** The counters before the statistics report of `process`. */
  function Played(v: ProcView, frames: nat): (r: ProcView)
    requires !Silent(v)
  {
    Counted(v.(length := v.length - Min(frames, v.length)), Min(frames, v.length) < frames, frames)
  }

  /** The statistics report: the counters since the last one are zeroed. */
  function Reported(v: ProcView): (r: ProcView)
  {
    v.(lastReport := v.samplesProcessed, underruns := 0, overflows := 0)
  }

  /** Whether `process` posts a statistics report. */
  predicate Reports(v: ProcView, frames: nat)
  {
    !Silent(v) && Played(v, frames).samplesProcessed - v.lastReport >= REPORT_INTERVAL
  }

  /** `process(inputs, outputs)`'s effect on the counters and length. */
  function OnProcess(v: ProcView, frames: nat): (r: ProcView)
  {
    if Silent(v) then v.(samplesProcessed := v.samplesProcessed + frames)
    else if Reports(v, frames) then Reported(Played(v, frames))
    else Played(v, frames)
  }

  /** The report `process` posts: the buffer as it was before the read, in milliseconds at 48 kHz. */
  function ProcessStats(v: ProcView, frames: nat): (r: Option<Stats>)
  {
    if Reports(v, frames) then Some(Stats(v.length as real / 48.0, Played(v, frames).underruns, v.overflows))
    else None
  }

  /** Every handler keeps the volume in [0, 1], the ring within its capacity and the underrun streak under the limit. */
  lemma HandlersStaySane(v: ProcView, frames: int, x: real, muted: bool, n: nat)
    requires Sane(v)
    ensures Sane(OnAudio(v, frames)) && Sane(OnVolume(v, x)) && Sane(v.(muted := muted))
    ensures Sane(OnClear(v)) && Sane(OnProcess(v, n))
  {
    AudioLength(v, frames);
  }

  /**
   * After an `audio` message the ring holds min(trimmed + frames, capacity)
   * samples, so however far playback lags, at most MAX_BUFFER + TARGET
   * samples from earlier messages survive it.
   */
  lemma AudioLength(v: ProcView, frames: int)
    requires Sane(v)
    ensures OnAudio(v, frames).length == Min(TrimmedLength(v.length) + Max(frames, 0), CAPACITY)
    ensures OnAudio(v, frames).length <= MAX_BUFFER + TARGET + Max(frames, 0)
    ensures Trims(v.length) ==> OnAudio(v, frames).overflows > v.overflows
  {
  }

  /** The ring's contents keep the length the view records, through `audio` and `process`. */
  lemma ContentsAgree(v: ProcView, cs: seq<seq<real>>, data: seq<seq<real>>, frames: int, n: nat)
    requires Sane(v) && |data| > 0 && Even(cs, v.length)
    ensures Even(AudioContents(cs, v.length, data, frames), OnAudio(v, frames).length)
    ensures Even(Dropped(cs, ProcessRead(v, n)), OnProcess(v, n).length)
  {
    var kept := if Trims(v.length) then Dropped(cs, v.length - MAX_BUFFER) else cs;
    assert Even(kept, TrimmedLength(v.length));
    WriteLength(kept, TrimmedLength(v.length), data, frames, CAPACITY);
    AudioLength(v, frames);
  }

  /**
   * A full read ends an underrun streak; the fifth short read in a row
   * sends the processor back to prebuffering, with the streak reset.
   */
  lemma UnderrunStreak(v: ProcView, frames: nat)
    requires !Silent(v) && Sane(v)
    ensures frames <= v.length ==> !OnProcess(v, frames).prebuffering && OnProcess(v, frames).consecutiveUnderruns == 0
    ensures v.length < frames ==>
      (OnProcess(v, frames).prebuffering <==> v.consecutiveUnderruns == UNDERRUN_LIMIT - 1)
    ensures v.length < frames && v.consecutiveUnderruns < UNDERRUN_LIMIT - 1 ==>
      OnProcess(v, frames).consecutiveUnderruns == v.consecutiveUnderruns + 1
  {
  }

  /**
   * While playing, a report is posted as soon as REPORT_INTERVAL samples
   * have been processed since the last one, and it zeroes the counters, so
   * after every played quantum fewer than REPORT_INTERVAL samples are
   * unreported.
   */
  lemma ReportCadence(v: ProcView, frames: nat)
    requires !Silent(v)
    ensures OnProcess(v, frames).samplesProcessed - OnProcess(v, frames).lastReport < REPORT_INTERVAL
    ensures ProcessStats(v, frames).Some? ==>
      OnProcess(v, frames).underruns == 0 && OnProcess(v, frames).overflows == 0 &&
      ProcessStats(v, frames).value.underruns >= v.underruns
  {
  }

  /**
   * At full volume the processor plays exactly what the ring reads; at
   * volume 0 it plays silence; muted or prebuffering it plays silence and
   * consumes nothing.
   */
  lemma ProcessPlays(v: ProcView, cs: seq<seq<real>>, frames: nat)
    requires |cs| == CHANNELS && 0 <= v.length && Even(cs, v.length)
    ensures !Silent(v) && v.volume == 1.0 ==> ProcessOutput(v, cs, frames) == ReadOut(cs, frames)
    ensures v.volume == 0.0 || Silent(v) ==> ProcessOutput(v, cs, frames) == Zeros(CHANNELS, frames)
    ensures Silent(v) ==> ProcessRead(v, frames) == 0 && OnProcess(v, frames).length == v.length
  {
    if v.volume == 0.0 && !Silent(v) {
      var out := ProcessOutput(v, cs, frames);
      forall c | 0 <= c < CHANNELS
        ensures out[c] == Zeros(CHANNELS, frames)[c]
      {
        assert |ReadOut(cs, frames)[c]| == frames;
      }
    }
  }

  /** One output channel multiplied by the volume. */
  method ScaleChannel(row: seq<real>, volume: real) returns (r: seq<real>)
    ensures r == Times(row, volume)
  {
    r := row;
    var i := 0;
    while i < |row|
      invariant 0 <= i <= |row| && |r| == |row|
      invariant forall j :: 0 <= j < i ==> r[j] == row[j] * volume
      invariant forall j :: i <= j < |row| ==> r[j] == row[j]
    {
      r := r[i := r[i] * volume];
      i := i + 1;
    }
  }

  /** The volume pass of `process`: skipped at volume 1. */
  method ScaleOutput(out: seq<seq<real>>, volume: real) returns (r: seq<seq<real>>)
    ensures r == Scaled(out, volume)
  {
    if volume == 1.0 {
      return out;
    }
    r := out;
    var c := 0;
    while c < |out|
      invariant 0 <= c <= |out| && |r| == |out|
      invariant forall d :: 0 <= d < c ==> r[d] == Scaled(out, volume)[d]
      invariant forall d :: c <= d < |out| ==> r[d] == out[d]
    {
      var row := ScaleChannel(out[c], volume);
      r := r[c := row];
      c := c + 1;
    }
  }

  /** `StreamAudioProcessor`: a stereo ring of 200 ms, its flags and its counters. */
  class StreamAudioProcessor {
    const rb: RingBuffer
    var prebuffering: bool
    var volume: real
    var muted: bool
    var samplesProcessed: int
    var underruns: int
    var overflows: int
    var lastReport: int
    var consecutiveUnderruns: int

    ghost predicate Valid()
      reads this, rb, rb.bufs
    {
      rb.Valid() && rb.ch == CHANNELS && rb.cap == CAPACITY
    }

    ghost function View(): ProcView
      reads this, rb
    {
      ProcView(prebuffering, volume, muted, samplesProcessed, underruns, overflows,
               lastReport, consecutiveUnderruns, rb.avail)
    }

    /** The constructor: an empty ring, prebuffering, full volume, counters at zero. */
    constructor()
      ensures Valid() && fresh(rb) && fresh(rb.bufs)
      ensures View() == Initial() && rb.model == Empty(CHANNELS)
    {
      rb := new RingBuffer(CHANNELS, CAPACITY);
      prebuffering := true;
      volume := 1.0;
      muted := false;
      samplesProcessed := 0;
      underruns := 0;
      overflows := 0;
      lastReport := 0;
      consecutiveUnderruns := 0;
    }

    /**
     * An `audio` message: a ring holding more than MAX_BUFFER + TARGET
     * samples is first trimmed to its newest MAX_BUFFER; then the frames
     * are written, overflows counted, and prebuffering ends once
     * PREBUF_THRESHOLD samples are buffered.
     */
    method Audio(data: seq<seq<real>>, frames: int)
      requires Valid() && |data| > 0
      modifies this, rb, rb.bufs
      ensures Valid()
      ensures View() == OnAudio(old(View()), frames)
      ensures rb.model == AudioContents(old(rb.model), old(rb.avail), data, frames)
    {
      Trim();
      Store(data, frames);
    }

    /** The write of an `audio` message and its accounting. */
    method Store(data: seq<seq<real>>, frames: int)
      requires Valid() && |data| > 0
      modifies this, rb, rb.bufs
      ensures Valid()
      ensures View() == Stored(old(View()), frames)
      ensures rb.model == Written(old(rb.model), data, frames, CAPACITY)
    {
      var written, overflow := rb.Write(data, frames);
      if overflow > 0 {
        overflows := overflows + 1;
      }
      if written > 0 {
        consecutiveUnderruns := 0;
      }
      if prebuffering && rb.avail >= PREBUF_THRESHOLD {
        prebuffering := false;
      }
    }

    /** The overflow trim of an `audio` message: keep the newest MAX_BUFFER samples of a ring holding more than MAX_BUFFER + TARGET. */
    method Trim()
      requires Valid()
      modifies this, rb
      ensures Valid()
      ensures View() == TrimView(old(View()))
      ensures rb.model == if Trims(old(rb.avail)) then Dropped(old(rb.model), old(rb.avail) - MAX_BUFFER) else old(rb.model)
    {
      var bufLen := rb.avail;
      if bufLen > MAX_BUFFER + TARGET {
        var toSkip := bufLen - MAX_BUFFER;
        if toSkip > 0 {
          var _ := rb.Skip(toSkip);
          overflows := overflows + 1;
        }
      }
    }

    /** A `volume` message: the gain, clamped to [0, 1]. */
    method SetVolume(x: real)
      modifies this
      ensures View() == OnVolume(old(View()), x)
    {
      volume := if x > 1.0 then 1.0 else if x < 0.0 then 0.0 else x;
    }

    /** A `mute` message. */
    method SetMuted(b: bool)
      modifies this
      ensures View() == old(View()).(muted := b)
    {
      muted := b;
    }

    /** A `clear` message. */
    method Clear()
      requires Valid()
      modifies this, rb
      ensures Valid() && View() == OnClear(old(View())) && rb.model == Empty(CHANNELS)
    {
      rb.Clear();
      underruns := 0;
      overflows := 0;
      consecutiveUnderruns := 0;
      prebuffering := true;
    }

    /**
     * `process(inputs, outputs)` for one render quantum of frames samples
     * on the two output channels: the samples played and the report posted,
     * if any.
     */
    method Process(frames: nat) returns (out: seq<seq<real>>, stats: Option<Stats>)
      requires Valid()
      modifies this, rb
      ensures Valid()
      ensures out == ProcessOutput(old(View()), old(rb.model), frames)
      ensures stats == ProcessStats(old(View()), frames)
      ensures View() == OnProcess(old(View()), frames)
      ensures rb.model == Dropped(old(rb.model), ProcessRead(old(View()), frames))
    {
      ghost var v0 := View();
      ghost var m0 := rb.model;
      var bufferMs := rb.avail as real / 48.0;
      if muted || prebuffering {
        NothingDropped(rb.model);
        samplesProcessed := samplesProcessed + frames;
        return Zeros(CHANNELS, frames), None;
      }
      var read;
      out, read := Play(frames);
      assert View() == v0.(length := v0.length - read);
      Account(read < frames, frames);
      assert View() == Played(v0, frames);
      stats := Report(bufferMs);
    }

    /** The read and volume pass of `process`. */
    method Play(frames: nat) returns (out: seq<seq<real>>, read: nat)
      requires Valid()
      modifies rb
      ensures Valid() && read == Min(frames, old(rb.avail))
      ensures out == Scaled(ReadOut(old(rb.model), frames), volume)
      ensures rb.model == Dropped(old(rb.model), read) && rb.avail == old(rb.avail) - read
    {
      out, read := rb.Read(frames);
      out := ScaleOutput(out, volume);
    }

    /** The underrun accounting of `process`. */
    method Account(under: bool, frames: nat)
      modifies this
      ensures View() == Counted(old(View()), under, frames)
    {
      if under {
        underruns := underruns + 1;
        consecutiveUnderruns := consecutiveUnderruns + 1;
        if consecutiveUnderruns >= UNDERRUN_LIMIT {
          prebuffering := true;
          consecutiveUnderruns := 0;
        }
      } else {
        consecutiveUnderruns := 0;
      }
      samplesProcessed := samplesProcessed + frames;
    }

    /** The statistics report of `process`, once REPORT_INTERVAL samples have passed since the last. */
    method Report(bufferMs: real) returns (stats: Option<Stats>)
      modifies this
      ensures old(samplesProcessed - lastReport) >= REPORT_INTERVAL ==>
        stats == Some(Stats(bufferMs, old(underruns), old(overflows))) && View() == Reported(old(View()))
      ensures old(samplesProcessed - lastReport) < REPORT_INTERVAL ==> stats == None && View() == old(View())
    {
      stats := None;
      if samplesProcessed - lastReport >= REPORT_INTERVAL {
        stats := Some(Stats(bufferMs, underruns, overflows));
        lastReport := samplesProcessed;
        underruns := 0;
        overflows := 0;
      }
    }
  }
}
