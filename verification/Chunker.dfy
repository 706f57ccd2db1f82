/** Sending a file as fixed-size FILE_TRANSFER_PROTOCOL payloads (mavlink_do_ftp_send). */
module Chunker {

  const MAX_CHUNK_BYTES: nat := 251

  /** round(length / 251): to the nearest integer. 251 is odd, so no quotient lies half-way. */
  function ChunkCount(length: nat): nat {
    (2 * length + MAX_CHUNK_BYTES) / (2 * MAX_CHUNK_BYTES)
  }

  /** The byte at a position of the padded stream. */
  function Padded(payload: seq<int>, position: nat): int {
    if position < |payload| then payload[position] else 0
  }

  /** What the receiver collects from the chunks in order. */
  function Stream(chunks: seq<seq<int>>): seq<int> {
    if chunks == [] then [] else Stream(chunks[..|chunks| - 1]) + chunks[|chunks| - 1]
  }

  predicate Fixed(chunks: seq<seq<int>>) {
    forall i | 0 <= i < |chunks| :: |chunks[i]| == MAX_CHUNK_BYTES
  }

  /** Byte b of chunk i is byte b + 251 i of the zero-padded payload. */
  predicate Cuts(payload: seq<int>, chunks: seq<seq<int>>) {
    && Fixed(chunks)
    && forall i, b | 0 <= i < |chunks| && 0 <= b < MAX_CHUNK_BYTES
        :: chunks[i][b] == Padded(payload, b + i * MAX_CHUNK_BYTES)
  }

  /**
   * The chunk loop: a position past the end of the payload is an IndexError and sends 0. A failed send is skipped
   * over.
   */
  method FtpSend(payload: seq<int>) returns (chunks: seq<seq<int>>)
    ensures |chunks| == ChunkCount(|payload|) && Cuts(payload, chunks)
  {
    var numOfChunk := ChunkCount(|payload|);
    chunks := [];
    for i := 0 to numOfChunk
      invariant |chunks| == i && Cuts(payload, chunks)
    {
      var msgpay := [];
      for b := 0 to MAX_CHUNK_BYTES
        invariant |msgpay| == b
        invariant forall c | 0 <= c < b :: msgpay[c] == Padded(payload, c + i * MAX_CHUNK_BYTES)
      {
        if b + i * MAX_CHUNK_BYTES < |payload| {
          msgpay := msgpay + [payload[b + i * MAX_CHUNK_BYTES]];
        } else {
          msgpay := msgpay + [0];
        }
      }
      chunks := chunks + [msgpay];
    }
  }

  /** No length is half-way between two chunk counts. */
  lemma NoTies(length: nat, n: nat)
    ensures 2 * length != MAX_CHUNK_BYTES * (2 * n + 1)
  {
    assert MAX_CHUNK_BYTES * (2 * n + 1) == 2 * (MAX_CHUNK_BYTES * n + 125) + 1;
  }

  function Distance(a: int, b: int): nat {
    if a <= b then b - a else a - b
  }

  /**
   * The chunks miss the payload's length by at most 125 bytes either way, and any other count misses it by more: the
   * count is the source's round() however that breaks ties.
   */
  lemma ChunkCountNearest(length: nat, other: nat)
    ensures Distance(MAX_CHUNK_BYTES * ChunkCount(length), length) <= 125
    ensures other != ChunkCount(length) ==>
              Distance(MAX_CHUNK_BYTES * ChunkCount(length), length) < Distance(MAX_CHUNK_BYTES * other, length)
  {
    NoTies(length, ChunkCount(length));
    if other < ChunkCount(length) {
      assert MAX_CHUNK_BYTES * other <= MAX_CHUNK_BYTES * (ChunkCount(length) - 1);
    } else if other > ChunkCount(length) {
      assert MAX_CHUNK_BYTES * other >= MAX_CHUNK_BYTES * (ChunkCount(length) + 1);
    }
  }

  lemma LastChunk(payload: seq<int>, chunks: seq<seq<int>>, p: nat)
    requires Cuts(payload, chunks) && chunks != []
    requires MAX_CHUNK_BYTES * (|chunks| - 1) <= p < MAX_CHUNK_BYTES * |chunks|
    ensures chunks[|chunks| - 1][p - MAX_CHUNK_BYTES * (|chunks| - 1)] == Padded(payload, p)
  {
    var (i, b) := (|chunks| - 1, p - MAX_CHUNK_BYTES * (|chunks| - 1));
    assert b + i * MAX_CHUNK_BYTES == p;
    assert chunks[i][b] == Padded(payload, b + i * MAX_CHUNK_BYTES);
  }

  lemma FrontCuts(payload: seq<int>, chunks: seq<seq<int>>)
    requires Cuts(payload, chunks) && chunks != []
    ensures Cuts(payload, chunks[..|chunks| - 1]) && |chunks[|chunks| - 1]| == MAX_CHUNK_BYTES
  {
  }

  lemma StreamByte(chunks: seq<seq<int>>, p: nat)
    requires Fixed(chunks) && chunks != [] && |Stream(chunks[..|chunks| - 1])| == MAX_CHUNK_BYTES * (|chunks| - 1)
    ensures |Stream(chunks)| == MAX_CHUNK_BYTES * |chunks|
    ensures p < MAX_CHUNK_BYTES * |chunks| ==>
              Stream(chunks)[p] == if p < MAX_CHUNK_BYTES * (|chunks| - 1) then Stream(chunks[..|chunks| - 1])[p]
                                   else chunks[|chunks| - 1][p - MAX_CHUNK_BYTES * (|chunks| - 1)]
  {
    assert |chunks[|chunks| - 1]| == MAX_CHUNK_BYTES;
  }

  /** Byte p of the stream is byte p of the zero-padded payload: nothing is reordered, repeated or skipped. */
  lemma {:induction false} StreamIsPadded(payload: seq<int>, chunks: seq<seq<int>>)
    requires Cuts(payload, chunks)
    ensures |Stream(chunks)| == MAX_CHUNK_BYTES * |chunks|
    ensures forall p | 0 <= p < |Stream(chunks)| :: Stream(chunks)[p] == Padded(payload, p)
  {
    if chunks != [] {
      FrontCuts(payload, chunks);
      StreamIsPadded(payload, chunks[..|chunks| - 1]);
      StreamByte(chunks, 0);
      forall p | 0 <= p < |Stream(chunks)|
        ensures Stream(chunks)[p] == Padded(payload, p)
      {
        StreamByte(chunks, p);
        if p >= MAX_CHUNK_BYTES * (|chunks| - 1) {
          LastChunk(payload, chunks, p);
        }
      }
    }
  }

  /** The whole payload arrives exactly when its length leaves remainder 0 or at least 126 modulo 251. */
  lemma WholePayloadIff(payload: seq<int>, chunks: seq<seq<int>>)
    requires |chunks| == ChunkCount(|payload|) && Cuts(payload, chunks)
    ensures payload <= Stream(chunks) <==> |payload| % MAX_CHUNK_BYTES == 0 || |payload| % MAX_CHUNK_BYTES >= 126
    ensures |Stream(chunks)| < |payload| ==> Stream(chunks) <= payload
  {
    StreamIsPadded(payload, chunks);
  }
}
