/** The bytes of queue.c: items copied into and out of a ring, and why the ring is a FIFO
    sequence of items. */
module RingBuffer {
  import opened Arithmetic

  type Item = seq<bv8>

  /** The slot `k` places after slot `head`. */
  function Slot(head: nat, k: nat, capacity: nat): (s: nat)
    requires head < capacity && k <= capacity
    ensures s < capacity
    ensures s == if head + k < capacity then head + k else head + k - capacity
  {
    WrapOnce(head + k, capacity);
    (head + k) % capacity
  }

  /** Where slot `s` begins in the buffer. */
  function Offset(s: nat, size: nat): (o: nat)
    ensures o == s * size
  {
    s * size
  }

  /** Slots do not overlap. */
  lemma OffsetsApart(s: nat, t: nat, size: nat)
    ensures s < t ==> Offset(s, size) + size <= Offset(t, size)
  {
    MonotoneProduct(s + 1, t, size);
  }

  class Ring {
    const buffer: array<bv8>
    const itemSize: nat
    const capacity: nat
    var count: nat
    var head: nat
    var tail: nat
    ghost var sent: seq<Item>
    ghost var received: seq<Item>

    ghost predicate Sound()
      reads this`count, this`head, this`tail
    {
      && Offset(capacity, itemSize) <= buffer.Length
      && count <= capacity < 0x1_0000
      && (if capacity == 0 then head == tail == 0 else head < capacity && tail == Slot(head, count, capacity))
    }

    /** The item in slot `s`. */
    ghost function At(s: nat): Item
      reads buffer
      requires s < capacity && Offset(capacity, itemSize) <= buffer.Length
    {
      OffsetsApart(s, capacity, itemSize);
      buffer[Offset(s, itemSize)..Offset(s, itemSize) + itemSize]
    }

    /** The items of `n` slots from slot `h` on, around the end. */
    ghost function Items(h: nat, n: nat): (q: seq<Item>)
      reads buffer
      requires h < capacity && n <= capacity && Offset(capacity, itemSize) <= buffer.Length
      ensures |q| == n && forall k :: 0 <= k < n ==> q[k] == At(Slot(h, k, capacity))
    {
      seq(n, k requires 0 <= k < n reads buffer => At(Slot(h, k, capacity)))
    }

    lemma ItemsTail(h: nat, n: nat)
      requires h < capacity && 0 < n <= capacity && Offset(capacity, itemSize) <= buffer.Length
      ensures Items(h, n) == [At(h)] + Items(Slot(h, 1, capacity), n - 1)
    {
      var r := Slot(h, 1, capacity);
      forall k | 0 < k < n ensures Items(h, n)[k] == Items(r, n - 1)[k - 1] {
        assert Slot(r, k - 1, capacity) == Slot(h, k, capacity);
      }
    }

    /** The queued items, oldest first. */
    ghost function Contents(): (q: seq<Item>)
      reads this`count, this`head, this`tail, buffer
      requires Sound()
      ensures |q| == count
    {
      if count == 0 then [] else Items(head, count)
    }

    /** Nothing is lost, invented or reordered. */
    ghost predicate Valid()
      reads this, buffer
    {
      Sound() && sent == received + Contents()
    }

    /** `queue_init`. */
    constructor (storage: array<bv8>, size: nat, slots: nat)
      requires Offset(slots, size) <= storage.Length && slots < 0x1_0000
      ensures buffer == storage && itemSize == size && capacity == slots
      ensures Valid() && Contents() == [] && sent == []
    {
      buffer, itemSize, capacity := storage, size, slots;
      count, head, tail := 0, 0, 0;
      sent, received := [], [];
    }

    /** `memcpy` into slot `s`: no other byte changes. */
    method Store(s: nat, item: Item)
      requires s < capacity && Offset(capacity, itemSize) <= buffer.Length && |item| == itemSize
      modifies buffer
      ensures At(s) == item
      ensures forall t :: 0 <= t < capacity && t != s ==> At(t) == old(At(t))
      ensures forall i :: Offset(capacity, itemSize) <= i < buffer.Length ==> buffer[i] == old(buffer[i])
    {
      var dst := Offset(s, itemSize);
      OffsetsApart(s, capacity, itemSize);
      for i := 0 to itemSize
        invariant forall j :: 0 <= j < i ==> buffer[dst + j] == item[j]
        invariant forall j :: 0 <= j < buffer.Length && !(dst <= j < dst + itemSize) ==> buffer[j] == old(buffer[j])
      {
        buffer[dst + i] := item[i];
      }
      forall t | 0 <= t < capacity && t != s ensures At(t) == old(At(t)) {
        OffsetsApart(s, t, itemSize);
        OffsetsApart(t, s, itemSize);
        OffsetsApart(t, capacity, itemSize);
      }
    }

    /** `queue_copy_in`. */
    method CopyIn(item: Item)
      requires Valid() && count < capacity && |item| == itemSize
      modifies this`count, this`tail, this`sent, buffer
      ensures Valid() && Contents() == old(Contents()) + [item]
      ensures sent == old(sent) + [item] && received == old(received)
      ensures forall s :: 0 <= s < capacity && s != old(tail) ==> At(s) == old(At(s))
      ensures forall i :: Offset(capacity, itemSize) <= i < buffer.Length ==> buffer[i] == old(buffer[i])
    {
      ghost var was := Contents();
      Store(tail, item);
      assert was == if count == 0 then [] else Items(head, count);
      tail := Slot(tail, 1, capacity);
      count := count + 1;
      sent := sent + [item];
      assert Items(head, count) == was + [item];
    }

    /** `queue_copy_out`. */
    method CopyOut() returns (item: Item)
      requires Valid() && count > 0
      modifies this`count, this`head, this`received
      ensures Valid() && [item] + Contents() == old(Contents())
      ensures received == old(received) + [item] && sent == old(sent)
    {
      hide Slot, Items, Offset, Sound, Contents;
      FrontFits();
      var src := Offset(head, itemSize);
      item := buffer[src..src + itemSize];
      assert item == At(head);
      Advance();
      assert received + ([item] + Contents()) == (received + [item]) + Contents();
      received := received + [item];
    }

    lemma FrontFits()
      requires Sound() && count > 0
      ensures head < capacity && Offset(capacity, itemSize) <= buffer.Length
      ensures Offset(head, itemSize) + itemSize <= buffer.Length
      ensures At(head) == buffer[Offset(head, itemSize)..Offset(head, itemSize) + itemSize]
    {
      OffsetsApart(head, capacity, itemSize);
    }

    /** The front slot is given up. */
    method Advance()
      requires Sound() && count > 0
      modifies this`count, this`head
      ensures Sound() && old(Contents()) == [old(At(head))] + Contents()
    {
      ItemsTail(head, count);
      head := Slot(head, 1, capacity);
      count := count - 1;
    }

    /** The data part of `queue_try_send`: refused just when the ring is full. */
    method TrySend(item: Item) returns (ok: bool)
      requires Valid() && |item| == itemSize
      modifies this, buffer
      ensures Valid() && ok == (|old(Contents())| < capacity)
      ensures Contents() == old(Contents()) + if ok then [item] else []
      ensures sent == old(sent) + (if ok then [item] else []) && received == old(received)
    {
      ok := count < capacity;
      if ok {
        CopyIn(item);
      }
    }

    /** The data part of `queue_try_receive`: refused just when the ring is empty. */
    method TryReceive() returns (ok: bool, item: Item)
      requires Valid()
      modifies this
      ensures Valid() && ok == (old(Contents()) != [])
      ensures old(Contents()) == (if ok then [item] else []) + Contents()
      ensures received == old(received) + (if ok then [item] else []) && sent == old(sent)
    {
      ok, item := count > 0, [];
      if ok {
        item := CopyOut();
      }
    }
  }
}
