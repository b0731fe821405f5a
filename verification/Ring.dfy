/** Arithmetic of the client-to-device direction: the distance macro, the ring indices
    and the window, over the unbounded offsets behind the 32-bit fields. */
module Ring {
  import opened Wrapping

  const BUFSIZE: nat := 0x80000

  /** The macro of the same name in TCP.cpp. */
  function Unacked(seqNo: u32, seqAcked: u32): u32 {
    if seqNo >= seqAcked then seqNo - seqAcked else 0x1_0000_0000 + seqNo - seqAcked
  }

  /** How many bytes one recv may put behind the send position. */
  function MaxReceive(seqNo: u32, seqAcked: u32): nat {
    var lseqAck, lseq := seqAcked % BUFSIZE, seqNo % BUFSIZE;
    if lseq >= lseqAck then BUFSIZE - lseq else lseqAck - lseq
  }

  /** How many bytes flush_data finds in one piece behind the acknowledged position. */
  function FlushLength(seqNo: u32, seqAcked: u32): nat {
    var lseqAck, lseq := seqAcked % BUFSIZE, seqNo % BUFSIZE;
    if lseq >= lseqAck then lseq - lseqAck else BUFSIZE - lseqAck
  }

  /** Below 2^32 the macro gives the true distance. */
  lemma UnackedIsDistance(iss: u32, far: nat, near: nat)
    requires near <= far < near + 0x1_0000_0000
    ensures Unacked(Wrap32(iss + far), Wrap32(iss + near)) == far - near
  {
  }

  /** The ring's size divides 2^32, so a wrap of the sequence number is not seen in the ring. */
  lemma SlotOfWrapped(x: nat)
    ensures Wrap32(x) % BUFSIZE == x % BUFSIZE
  {
  }

  lemma SlotPlus(x: nat, d: nat)
    requires d <= BUFSIZE
    ensures (x + d) % BUFSIZE == if x % BUFSIZE + d < BUFSIZE then x % BUFSIZE + d else x % BUFSIZE + d - BUFSIZE
  {
  }

  /** m slots from position y on do not touch an earlier position within one ring of their end. */
  lemma SlotOutside(x: nat, y: nat, m: nat)
    requires x < y && y + m <= x + BUFSIZE && y % BUFSIZE + m <= BUFSIZE
    ensures !(y % BUFSIZE <= x % BUFSIZE < y % BUFSIZE + m)
  {
  }

  function Least(x: int, y: int): int { if x < y then x else y }

  /** The free space found by loopEvent is real exactly when less than a full ring is
      outstanding: with a full ring, both indices agree and unacknowledged bytes are lost. Then
      it is all that is free up to the ring's end. */
  lemma FreeSpaceExact(iss: u32, far: nat, near: nat)
    requires near <= far
    ensures var room := MaxReceive(Wrap32(iss + far), Wrap32(iss + near));
            && 1 <= room && (iss + far) % BUFSIZE + room <= BUFSIZE
            && (room <= BUFSIZE - (far - near) <==> far - near < BUFSIZE)
            && (far - near < BUFSIZE ==> room == Least(BUFSIZE - (far - near), BUFSIZE - (iss + far) % BUFSIZE))
  {
    SlotOfWrapped(iss + far);
    SlotOfWrapped(iss + near);
    if far - near < BUFSIZE {
      SlotPlus(iss + near, far - near);
    }
  }

  lemma RoomFits(seqNo: u32, seqAcked: u32)
    ensures 1 <= MaxReceive(seqNo, seqAcked) && seqNo % BUFSIZE + MaxReceive(seqNo, seqAcked) <= BUFSIZE
  {
  }

  lemma FlushFits(seqNo: u32, seqAcked: u32)
    ensures seqAcked % BUFSIZE + FlushLength(seqNo, seqAcked) <= BUFSIZE
  {
  }

  /** What flush_data finds is what is outstanding up to the ring's end, and is nothing only if
      nothing is. */
  lemma FlushLengthExact(iss: u32, far: nat, near: nat)
    requires near <= far < near + BUFSIZE
    ensures var n := FlushLength(Wrap32(iss + far), Wrap32(iss + near));
            && n == Least(far - near, BUFSIZE - (iss + near) % BUFSIZE) && (n == 0 <==> far == near) && (iss + near) % BUFSIZE + n <= BUFSIZE
  {
    SlotOfWrapped(iss + far);
    SlotOfWrapped(iss + near);
    SlotPlus(iss + near, far - near);
  }

  /** Stream byte j is numbered iss + 1 + j; buf holds it at that number modulo the ring. */
  ghost predicate Retained(buf: seq<byte>, iss: u32, stream: seq<byte>, from: nat)
    requires |buf| == BUFSIZE
  {
    forall j :: from <= j < |stream| ==> buf[(iss + 1 + j) % BUFSIZE] == stream[j]
  }

  /** Reading behind the send position keeps every byte that is within one ring. */
  lemma ReceiveRetains(buf: seq<byte>, buf': seq<byte>, iss: u32, stream: seq<byte>, more: seq<byte>, from: nat)
    requires |buf| == |buf'| == BUFSIZE && Retained(buf, iss, stream, from)
    requires from <= |stream| && |stream| + |more| <= from + BUFSIZE
    requires (iss + 1 + |stream|) % BUFSIZE + |more| <= BUFSIZE
    requires buf' == buf[..(iss + 1 + |stream|) % BUFSIZE] + more + buf[(iss + 1 + |stream|) % BUFSIZE + |more|..]
    ensures Retained(buf', iss, stream + more, from)
  {
    var at := (iss + 1 + |stream|) % BUFSIZE;
    forall j | from <= j < |stream + more|
      ensures buf'[(iss + 1 + j) % BUFSIZE] == (stream + more)[j]
    {
      if j < |stream| {
        SlotOutside(iss + 1 + j, iss + 1 + |stream|, |more|);
      } else {
        SlotAhead(iss + 1 + |stream|, j - |stream|);
      }
    }
  }

  lemma SlotAhead(x: nat, k: nat)
    requires x % BUFSIZE + k < BUFSIZE
    ensures (x + k) % BUFSIZE == x % BUFSIZE + k
  {
  }

  /** A piece of the ring that does not wrap is the stretch of the stream it is numbered as. */
  lemma PieceOfStream(buf: seq<byte>, iss: u32, stream: seq<byte>, from: nat, j: nat, n: nat)
    requires |buf| == BUFSIZE && Retained(buf, iss, stream, from)
    requires from <= j && j + n <= |stream| && (iss + 1 + j) % BUFSIZE + n <= BUFSIZE
    ensures buf[(iss + 1 + j) % BUFSIZE..(iss + 1 + j) % BUFSIZE + n] == stream[j..j + n]
  {
    var piece := buf[(iss + 1 + j) % BUFSIZE..(iss + 1 + j) % BUFSIZE + n];
    forall k | 0 <= k < n
      ensures piece[k] == stream[j..j + n][k]
    {
      SlotAhead(iss + 1 + j, k);
      assert stream[j + k] == buf[(iss + 1 + (j + k)) % BUFSIZE];
    }
  }
}
