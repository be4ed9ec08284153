/** One session's buffer in external memory: 2^18 byte slots, addressed modulo the buffer size.

    Positions are unbounded byte counts; the slot of position p is p mod 2^18.
 */
module RingMemory {
  import opened Words

  type Memory = map<u18, byte>

  function ByteAt(mem: Memory, slot: u18): byte {
    if slot in mem then mem[slot] else 0
  }

  /** Stores the payload byte by byte, wrapping at the end of the buffer. */
  function Store(mem: Memory, slot: u18, payload: seq<byte>): Memory {
    if payload == [] then mem
    else
      var n := |payload| - 1;
      Store(mem, slot, payload[..n])[To18(slot + n) := payload[n]]
  }

  function ReadRing(mem: Memory, slot: u18, length: nat): (bytes: seq<byte>)
    ensures |bytes| == length
    ensures forall i :: 0 <= i < length ==> bytes[i] == ByteAt(mem, To18(slot + i))
  {
    if length == 0 then []
    else ReadRing(mem, slot, length - 1) + [ByteAt(mem, To18(slot + length - 1))]
  }

  lemma SlotOf(pos: int, i: int)
    ensures To18(To18(pos) + i) == To18(pos + i)
  {
  }

  lemma {:induction false} StoredByte(mem: Memory, pos: int, payload: seq<byte>, q: int)
    requires |payload| <= BUFFER_SIZE
    requires pos <= q < pos + |payload|
    ensures ByteAt(Store(mem, To18(pos), payload), To18(q)) == payload[q - pos]
  {
    hide To18;
    var n := |payload| - 1;
    SlotOf(pos, n);
    if q < pos + n {
      StoredByte(mem, pos, payload[..n], q);
      DistinctSlots(q, pos + n);
    }
  }

  /** Positions that lie before the stored range, but less than a buffer before its end, keep
      their bytes. */
  lemma {:induction false} KeptByte(mem: Memory, pos: int, payload: seq<byte>, q: int)
    requires pos + |payload| - BUFFER_SIZE <= q < pos
    ensures ByteAt(Store(mem, To18(pos), payload), To18(q)) == ByteAt(mem, To18(q))
  {
    hide To18;
    if payload != [] {
      var n := |payload| - 1;
      SlotOf(pos, n);
      KeptByte(mem, pos, payload[..n], q);
      DistinctSlots(q, pos + n);
    }
  }
}
