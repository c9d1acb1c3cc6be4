/**
 * The 31-byte video packet header that `WebRTCServer::Send` writes in
 * front of every data and parity chunk and that the client's
 * `handleVideo` reads back, field by field, little-endian.
 *
 *   0  u64 captureTs      8  u32 encodeUs     12 u32 frameId
 *   16 u32 frameSize      20 u16 chunkIndex   22 u16 totalChunks
 *   24 u16 chunkBytes     26 u16 dataChunkSize
 *   28 u8 frameType       29 u8 packetType    30 u8 fecGroupSize
 */
module VideoHeader {
  import opened Bytes

  const HEADER_SIZE: nat := 31
  /** `packetType` of a data chunk and of a parity chunk. */
  const PKT_DATA: nat := 0
  const PKT_FEC: nat := 1

  datatype Header = Header(
    captureTs: nat, encodeUs: nat, frameId: nat, frameSize: nat,
    chunkIndex: nat, totalChunks: nat, chunkBytes: nat, dataChunkSize: nat,
    frameType: nat, packetType: nat, fecGroupSize: nat)

  /** Field widths in bytes, in wire order; their offsets are the running sums. */
  const WIDTHS: seq<nat> := [8, 4, 4, 4, 2, 2, 2, 2, 1, 1, 1]

  /** Every field fits its wire width. */
  predicate WellFormed(h: Header)
  {
    h.captureTs < TWO64 && h.encodeUs < TWO32 && h.frameId < TWO32 && h.frameSize < TWO32 &&
    h.chunkIndex < TWO16 && h.totalChunks < TWO16 && h.chunkBytes < TWO16 && h.dataChunkSize < TWO16 &&
    h.frameType < 256 && h.packetType < 256 && h.fecGroupSize < 256
  }

  /** The field values in wire order. */
  function Values(h: Header): (vs: seq<nat>)
    ensures |vs| == |WIDTHS|
  {
    [h.captureTs, h.encodeUs, h.frameId, h.frameSize,
     h.chunkIndex, h.totalChunks, h.chunkBytes, h.dataChunkSize,
     h.frameType, h.packetType, h.fecGroupSize]
  }

  function FromValues(vs: seq<nat>): Header
    requires |vs| == |WIDTHS|
  {
    Header(vs[0], vs[1], vs[2], vs[3], vs[4], vs[5], vs[6], vs[7], vs[8], vs[9], vs[10])
  }

  lemma ValuesFromValues(vs: seq<nat>)
    requires |vs| == |WIDTHS|
    ensures Values(FromValues(vs)) == vs
  {
  }

  function Sum(ws: seq<nat>): nat
  {
    if |ws| == 0 then 0 else ws[0] + Sum(ws[1..])
  }

  /** Values written one after another, value k little-endian in ws[k] bytes. */
  function EncodeFields(vs: seq<nat>, ws: seq<nat>): (r: seq<byte>)
    requires |vs| == |ws|
    ensures |r| == Sum(ws)
  {
    if |ws| == 0 then [] else LE(vs[0], ws[0]) + EncodeFields(vs[1..], ws[1..])
  }

  /** Consecutive little-endian reads of ws[0], ws[1], ... bytes from the front of p. */
  function DecodeFields(p: seq<byte>, ws: seq<nat>): (vs: seq<nat>)
    requires |p| >= Sum(ws)
    ensures |vs| == |ws|
  {
    if |ws| == 0 then [] else [ReadLE(p[..ws[0]])] + DecodeFields(p[ws[0]..], ws[1..])
  }

  /** The 31 bytes `Send` writes in front of a chunk. */
  function Encode(h: Header): (r: seq<byte>)
    ensures |r| == HEADER_SIZE
  {
    EncodeFields(Values(h), WIDTHS)
  }

  /** The client's field reads at the fixed offsets. */
  function Decode(p: seq<byte>): (h: Header)
    requires |p| >= HEADER_SIZE
  {
    FromValues(DecodeFields(p, WIDTHS))
  }

  /**
   * A video packet as `Send` queues it: the header and the chunk (or parity)
   * bytes copied after it. Its bytes on the data channel are `Wire(p)`.
   */
  datatype Packet = Packet(header: Header, payload: seq<byte>)

  function Wire(p: Packet): (r: seq<byte>)
    ensures |r| == HEADER_SIZE + |p.payload|
  {
    Encode(p.header) + p.payload
  }

  /** The receiver recovers both halves of a packet from its bytes. */
  lemma WireDecode(p: Packet)
    requires WellFormed(p.header)
    ensures Decode(Wire(p)) == p.header
    ensures Wire(p)[HEADER_SIZE..] == p.payload
  {
    DecodeEncode(p.header, p.payload);
  }

  /** Values that fit their widths are read back unchanged, whatever follows them. */
  lemma {:induction false} DecodeEncodeFields(vs: seq<nat>, ws: seq<nat>, rest: seq<byte>)
    requires |vs| == |ws| && forall k :: 0 <= k < |ws| ==> vs[k] < Pow256(ws[k])
    ensures DecodeFields(EncodeFields(vs, ws) + rest, ws) == vs
  {
    if |ws| > 0 {
      var tail := EncodeFields(vs[1..], ws[1..]) + rest;
      var p := EncodeFields(vs, ws) + rest;
      assert p == LE(vs[0], ws[0]) + tail;
      assert p[..ws[0]] == LE(vs[0], ws[0]);
      assert p[ws[0]..] == tail;
      ReadLEOfLE(vs[0], ws[0]);
      DecodeEncodeFields(vs[1..], ws[1..], rest);
      assert vs == [vs[0]] + vs[1..];
    }
  }

  /** Writing back what was read reproduces the bytes read. */
  lemma {:induction false} EncodeDecodeFields(p: seq<byte>, ws: seq<nat>)
    requires |p| >= Sum(ws)
    ensures EncodeFields(DecodeFields(p, ws), ws) == p[..Sum(ws)]
  {
    if |ws| > 0 {
      var vs := DecodeFields(p, ws);
      EncodeDecodeFields(p[ws[0]..], ws[1..]);
      LEOfReadLE(p[..ws[0]]);
      assert vs[1..] == DecodeFields(p[ws[0]..], ws[1..]);
      assert p[..ws[0]] + p[ws[0]..][..Sum(ws[1..])] == p[..Sum(ws)];
    }
  }

  /** The client reads back exactly the header the server wrote, whatever payload follows. */
  lemma DecodeEncode(h: Header, payload: seq<byte>)
    requires WellFormed(h)
    ensures Decode(Encode(h) + payload) == h
  {
    Pow256Values();
    DecodeEncodeFields(Values(h), WIDTHS, payload);
  }

  /** Conversely, every 31 bytes are the encoding of the header read from them. */
  lemma EncodeDecode(p: seq<byte>)
    requires |p| >= HEADER_SIZE
    ensures Encode(Decode(p)) == p[..HEADER_SIZE]
  {
    ValuesFromValues(DecodeFields(p, WIDTHS));
    EncodeDecodeFields(p, WIDTHS);
  }

  /** Every header read from the wire has each field within its width. */
  lemma DecodeWellFormed(p: seq<byte>)
    requires |p| >= HEADER_SIZE
    ensures WellFormed(Decode(p))
  {
    DecodeBounds(p, WIDTHS);
    Pow256Values();
  }

  /** Each value read from w bytes is below 256^w. */
  lemma {:induction false} DecodeBounds(p: seq<byte>, ws: seq<nat>)
    requires |p| >= Sum(ws)
    ensures forall k :: 0 <= k < |ws| ==> DecodeFields(p, ws)[k] < Pow256(ws[k])
  {
    if |ws| > 0 {
      DecodeBounds(p[ws[0]..], ws[1..]);
      var vs := DecodeFields(p, ws);
      forall k | 0 < k < |ws|
        ensures vs[k] < Pow256(ws[k])
      {
        assert vs[k] == DecodeFields(p[ws[0]..], ws[1..])[k - 1];
      }
    }
  }
}
