/**
 * `ChunkQueue`: a FIFO of decoded audio buffers waiting to be processed. A
 * chunk may be consumed only in part, in which case what is left is copied
 * into a pooled buffer and put back at the front. `ShortBufferPool` keeps
 * buffers given back for reuse.
 *
 * A release callback is either the caller's (recorded, by id, in
 * `released` when invoked) or a return of a pooled buffer to the pool.
 */
module Chunks {
  import opened Common
  import opened Buffers
  import opened Conversions

  /** The first pooled buffer with room for `needed` shorts (`indexOfFirst`). */
  function FirstFit(buffers: seq<Buffer>, needed: int): (r: Option<nat>)
    ensures r.Some? ==> r.value < |buffers| && buffers[r.value].Capacity() >= needed
    ensures r.Some? ==> forall j :: 0 <= j < r.value ==> buffers[j].Capacity() < needed
    ensures r.None? ==> forall j :: 0 <= j < |buffers| ==> buffers[j].Capacity() < needed
    decreases |buffers|
  {
    if |buffers| == 0 then None
    else if buffers[0].Capacity() >= needed then Some(0)
    else match FirstFit(buffers[1..], needed)
      case Some(i) => Some(i + 1)
      case None => None
  }

  /** `memory.put(original)` then `memory.flip()` on a cleared buffer: `memory` then reads the original's samples. */
  method Fill(memory: Buffer, original: Buffer)
    requires memory.Valid() && original.Valid() && memory != original && memory.data != original.data
    requires memory.position == 0 && memory.limit == memory.Capacity() >= original.Remaining()
    modifies memory, memory.data, original
    ensures memory.Valid() && original.Valid()
    ensures memory.position == 0 && memory.Content() == old(original.Content())
    ensures original.position == old(original.limit) && original.limit == old(original.limit)
    ensures unchanged(original.data)
  {
    ghost var content := original.Content();
    var needed := original.Remaining();
    memory.PutAll(original);
    assert memory.data[..needed] == content;
    memory.Flip();
    assert memory.Content() == memory.data[..needed];
  }

  class ShortBufferPool {
    var buffers: seq<Buffer>

    ghost function Arrays(): set<array<int>>
      reads this
    {
      set b | b in buffers :: b.data
    }

    /** Pooled buffers are cleared and share neither identity nor storage. */
    ghost predicate Valid()
      reads this, buffers
    {
      && (forall i :: 0 <= i < |buffers| ==>
            buffers[i].Valid() && buffers[i].position == 0 && buffers[i].limit == buffers[i].Capacity())
      && (forall i, j :: 0 <= i < j < |buffers| ==> buffers[i] != buffers[j] && buffers[i].data != buffers[j].data)
    }

    constructor()
      ensures Valid() && buffers == []
    {
      buffers := [];
    }

    /**
     * `take`: the first pooled buffer large enough is removed from the pool,
     * otherwise `max(needed * 2, 1024)` bytes are allocated as shorts; the
     * original's remaining shorts are copied in and the copy is flipped for
     * reading. The original is left fully read.
     */
    method Take(original: Buffer) returns (memory: Buffer)
      requires Valid() && original.Valid()
      requires original !in buffers && original.data !in Arrays()
      modifies this, original, buffers, Arrays()
      ensures Valid() && original.Valid() && memory.Valid()
      ensures memory.position == 0 && memory.Content() == old(original.Content())
      ensures original.position == old(original.limit) && original.limit == old(original.limit)
      ensures unchanged(original.data)
      ensures memory != original && memory.data != original.data
      ensures match FirstFit(old(buffers), old(original.Remaining()))
        case Some(i) => memory == old(buffers[i]) && buffers == old(buffers[..i] + buffers[i + 1..])
        case None => fresh(memory) && fresh(memory.data) && buffers == old(buffers)
                     && memory.Capacity() == Max(old(original.Remaining()), 512)
      ensures memory !in buffers && memory.data !in Arrays()
      ensures forall b :: b in buffers ==> b in old(buffers) && unchanged(b) && unchanged(b.data)
      ensures Arrays() <= old(Arrays())
    {
      var needed := original.Remaining();
      var index := FirstFit(buffers, needed);
      if index.Some? {
        memory := RemoveAt(index.value);
      } else {
        memory := new Buffer.Allocate(Max(needed * 2, 1024) / 2);
      }
      Fill(memory, original);
    }

    /** `removeAt`: the pooled buffer at `i` leaves the pool. */
    method RemoveAt(i: nat) returns (b: Buffer)
      requires Valid() && i < |buffers|
      modifies this
      ensures Valid() && b == old(buffers[i]) && buffers == old(buffers[..i] + buffers[i + 1..])
      ensures b.Valid() && b.position == 0 && b.limit == b.Capacity()
      ensures b !in buffers && b.data !in Arrays()
    {
      b := buffers[i];
      buffers := buffers[..i] + buffers[i + 1..];
      assert forall j :: 0 <= j < |buffers| ==> buffers[j] == old(buffers)[if j < i then j else j + 1];
    }

    /** `give`: the buffer is cleared and appended to the pool. */
    method Give(b: Buffer)
      requires Valid() && b.Valid() && b !in buffers && b.data !in Arrays()
      modifies this, b
      ensures Valid() && buffers == old(buffers) + [b]
      ensures b.position == 0 && b.limit == b.Capacity() && unchanged(b.data)
      ensures forall x :: x in old(buffers) ==> unchanged(x)
    {
      b.Clear();
      buffers := buffers + [b];
    }
  }

  /** What a chunk's release callback does. */
  datatype Release = CallerRelease(id: int) | PoolGive(buffer: Buffer)

  /** A queued chunk, or the end-of-stream sentinel `Chunk.Eos`. */
  datatype Chunk = Chunk(buffer: Buffer, timeUs: int, timeStretch: real, release: Release) | Eos

  /** The time of the first sample left in a partly consumed chunk. */
  function RequeueTime(timeUs: int, consumed: int, sampleRate: int, channels: int): int
    requires sampleRate > 0 && channels > 0
  {
    timeUs + ShortsToUs(consumed, sampleRate, channels)
  }

  /** The requeued chunk's time as the source computes it: the consumed span alone. */
  function RequeueTimeAsWritten(timeUs: int, consumed: int, sampleRate: int, channels: int): int
    requires sampleRate > 0 && channels > 0
  {
    ShortsToUs(consumed, sampleRate, channels)
  }

  /**
   * A chunk of which nothing was consumed (the action found no room) comes
   * back as written with time 0, wherever it lay in the stream; the
   * corrected time keeps it where it was.
   */
  lemma StalledChunkLosesTime()
    ensures RequeueTimeAsWritten(1_000_000, 0, 44100, 2) == 0
    ensures RequeueTime(1_000_000, 0, 44100, 2) == 1_000_000
  {
  }

  /**
   * The corrected time of what is left lies within the chunk's own span:
   * not before its start and not after the time its whole content covers.
   */
  lemma {:induction false} RequeueTimeWithinChunk(timeUs: int, consumed: int, size: int, sampleRate: int, channels: int)
    requires sampleRate > 0 && channels > 0 && 0 <= consumed <= size
    ensures timeUs <= RequeueTime(timeUs, consumed, sampleRate, channels)
    ensures RequeueTime(timeUs, consumed, sampleRate, channels) <= timeUs + ShortsToUs(size, sampleRate, channels)
    ensures RequeueTime(timeUs, 0, sampleRate, channels) == timeUs
  {
    BytesToUsBounds(consumed * BYTES_PER_SHORT, sampleRate, channels);
    BytesToUsMonotone(consumed * BYTES_PER_SHORT, size * BYTES_PER_SHORT, sampleRate, channels);
  }

  /**
   * The action leaves the buffer at `afterPosition` with limit
   * `afterLimit`; `drain` then restores the limit, which pulls the position
   * back to it if beyond.
   */
  method RunAction(buffer: Buffer, afterPosition: int, afterLimit: int)
    requires buffer.Valid() && 0 <= afterPosition <= afterLimit <= buffer.Capacity()
    modifies buffer
    ensures buffer.Valid() && buffer.limit == old(buffer.limit)
    ensures buffer.position == Min(afterPosition, old(buffer.limit))
  {
    var limit := buffer.limit;
    buffer.SetLimit(afterLimit);
    buffer.SetPosition(afterPosition);
    buffer.SetLimit(limit);
  }

  class ChunkQueue {
    var queue: seq<Chunk>
    const pool: ShortBufferPool
    var released: seq<int>

    ghost function Buffers(): set<Buffer>
      reads this
    {
      set c | c in queue && c.Chunk? :: c.buffer
    }

    ghost function BufferArrays(): set<array<int>>
      reads this
    {
      set c | c in queue && c.Chunk? :: c.buffer.data
    }

    /**
     * Every queued chunk holds samples; queued buffers are distinct from
     * each other and from the pooled ones, in identity and storage; a chunk
     * that gives its buffer back gives its own.
     */
    ghost predicate Valid()
      reads this, pool, pool.buffers, Buffers()
    {
      && pool.Valid()
      && (forall i :: 0 <= i < |queue| && queue[i].Chunk? ==>
            && queue[i].buffer.Valid() && queue[i].buffer.HasRemaining()
            && queue[i].buffer !in pool.buffers && queue[i].buffer.data !in pool.Arrays()
            && (queue[i].release.PoolGive? ==> queue[i].release.buffer == queue[i].buffer))
      && (forall i, j :: 0 <= i < j < |queue| && queue[i].Chunk? && queue[j].Chunk? ==>
            queue[i].buffer != queue[j].buffer && queue[i].buffer.data != queue[j].buffer.data)
    }

    constructor()
      ensures Valid() && queue == [] && released == [] && fresh(pool) && pool.buffers == []
    {
      queue := [];
      pool := new ShortBufferPool();
      released := [];
    }

    /** `isEmpty` and `size`. */
    function Size(): (n: nat)
      reads this
      ensures n == 0 <==> queue == []
    {
      |queue|
    }

    /** Runs a release callback. */
    method Invoke(rel: Release)
      requires Valid()
      requires rel.PoolGive? ==>
        && rel.buffer.Valid() && rel.buffer !in Buffers() && rel.buffer.data !in BufferArrays()
        && rel.buffer !in pool.buffers && rel.buffer.data !in pool.Arrays()
      modifies this, pool, if rel.PoolGive? then {rel.buffer} else {}
      ensures Valid() && queue == old(queue)
      ensures rel.CallerRelease? ==> released == old(released) + [rel.id] && pool.buffers == old(pool.buffers)
      ensures rel.PoolGive? ==> released == old(released) && pool.buffers == old(pool.buffers) + [rel.buffer]
      ensures forall b :: b in old(pool.buffers) ==> unchanged(b)
    {
      match rel
      case CallerRelease(id) =>
        released := released + [id];
      case PoolGive(b) =>
        pool.Give(b);
    }

    /**
     * `enqueue`: an empty buffer is released at once. Behind three or more
     * chunks the samples are copied into a pooled buffer and the caller's
     * buffer is released; otherwise the caller's buffer is queued as it is.
     * Either way the queue gains the same samples at its tail.
     */
    method Enqueue(buffer: Buffer, timeUs: int, timeStretch: real, id: int)
      requires Valid() && buffer.Valid()
      requires buffer !in Buffers() && buffer.data !in BufferArrays()
      requires buffer !in pool.buffers && buffer.data !in pool.Arrays()
      modifies this, buffer, pool, pool.buffers, pool.Arrays()
      ensures Valid()
      ensures !old(buffer.HasRemaining()) ==> queue == old(queue) && released == old(released) + [id]
      ensures old(buffer.HasRemaining()) && old(|queue|) < 3 ==>
        && queue == old(queue) + [Chunk(buffer, timeUs, timeStretch, CallerRelease(id))]
        && released == old(released) && unchanged(buffer)
      ensures old(buffer.HasRemaining()) && old(|queue|) >= 3 ==>
        && |queue| == old(|queue|) + 1 && queue[..old(|queue|)] == old(queue)
        && released == old(released) + [id]
        && var c := queue[|queue| - 1];
           c.Chunk? && c.timeUs == timeUs && c.timeStretch == timeStretch
           && c.release == PoolGive(c.buffer) && c.buffer.Content() == old(buffer.Content())
      ensures forall c :: c in old(queue) && c.Chunk? ==> unchanged(c.buffer) && unchanged(c.buffer.data)
    {
      if buffer.HasRemaining() {
        if |queue| >= 3 {
          EnqueueCopy(buffer, timeUs, timeStretch, id);
        } else {
          queue := queue + [Chunk(buffer, timeUs, timeStretch, CallerRelease(id))];
        }
      } else {
        Invoke(CallerRelease(id));
      }
    }

    /**
     * The branch of `enqueue` behind three or more chunks: a pooled copy of
     * the samples joins the tail and the caller's buffer is released.
     */
    method EnqueueCopy(buffer: Buffer, timeUs: int, timeStretch: real, id: int)
      requires Valid() && buffer.Valid() && buffer.HasRemaining()
      requires buffer !in Buffers() && buffer.data !in BufferArrays()
      requires buffer !in pool.buffers && buffer.data !in pool.Arrays()
      modifies this, buffer, pool, pool.buffers, pool.Arrays()
      ensures Valid()
      ensures |queue| == old(|queue|) + 1 && queue[..old(|queue|)] == old(queue)
      ensures released == old(released) + [id]
      ensures queue[|queue| - 1].Chunk?
      ensures queue[|queue| - 1].timeUs == timeUs && queue[|queue| - 1].timeStretch == timeStretch
      ensures queue[|queue| - 1].release == PoolGive(queue[|queue| - 1].buffer)
      ensures queue[|queue| - 1].buffer.Content() == old(buffer.Content())
      ensures forall c :: c in old(queue) && c.Chunk? ==> unchanged(c.buffer) && unchanged(c.buffer.data)
    {
      var copy := pool.Take(buffer);
      assert copy !in Buffers() && copy.data !in BufferArrays();
      queue := queue + [Chunk(copy, timeUs, timeStretch, PoolGive(copy))];
      released := released + [id];
    }

    /** `enqueueEos`: the sentinel joins the tail. */
    method EnqueueEos()
      requires Valid()
      modifies this
      ensures Valid() && queue == old(queue) + [Eos] && released == old(released)
    {
      queue := queue + [Eos];
    }

    /**
     * `drain`: takes the head. An empty queue throws; the sentinel answers
     * `eos`. Otherwise the action (whose answer is `result`) leaves the head
     * buffer at `afterPosition` with limit `afterLimit`; the limit is
     * restored, the head is released, and what is left, if anything, goes
     * back to the front in a pooled copy stamped, as written, with the
     * duration of the consumed part alone (`RequeueTimeAsWritten`).
     */
    method Drain<T>(sampleRate: int, channels: int, eos: T, result: T, afterPosition: int, afterLimit: int)
        returns (r: Result<T>)
      requires Valid() && sampleRate > 0 && channels > 0
      requires |queue| > 0 && queue[0].Chunk? ==> 0 <= afterPosition <= afterLimit <= queue[0].buffer.Capacity()
      modifies this, pool, pool.buffers, pool.Arrays()
      modifies if |queue| > 0 && queue[0].Chunk? then {queue[0].buffer} else {}
      ensures Valid()
      ensures old(queue) == [] ==> r.Failure? && queue == [] && released == old(released)
      ensures old(queue) != [] && old(queue[0]).Eos? ==>
        r == Success(eos) && queue == old(queue[1..]) && released == old(released)
      ensures old(queue) != [] && old(queue[0]).Chunk? ==>
        var head := old(queue[0]);
        var limit := old(head.buffer.limit);
        var position := Min(afterPosition, limit);
        && r == Success(result)
        && released == old(released) + (if head.release.CallerRelease? then [head.release.id] else [])
        && (head.release.PoolGive? ==> head.buffer in pool.buffers)
        && (position == limit ==> queue == old(queue[1..]))
        && (position < limit ==>
              && |queue| == old(|queue|) && queue[1..] == old(queue[1..])
              && queue[0].Chunk? && queue[0].release == PoolGive(queue[0].buffer)
              && queue[0].timeStretch == head.timeStretch
              && queue[0].timeUs == RequeueTimeAsWritten(head.timeUs, position - old(head.buffer.position), sampleRate, channels)
              && queue[0].buffer.Content() == old(head.buffer.data[position..limit]))
      ensures old(queue) != [] ==>
        forall c :: c in old(queue[1..]) && c.Chunk? ==> unchanged(c.buffer) && unchanged(c.buffer.data)
    {
      if |queue| == 0 {
        return Failure("NoSuchElementException");
      }
      var head := queue[0];
      queue := queue[1..];
      if head.Eos? {
        return Success(eos);
      }
      r := DrainChunk(head, sampleRate, channels, result, afterPosition, afterLimit);
    }

    /** `pool.take` of a buffer that is neither queued nor pooled: the queue is not disturbed. */
    method CopyOut(original: Buffer) returns (copy: Buffer)
      requires Valid() && original.Valid() && original.HasRemaining()
      requires original !in Buffers() && original.data !in BufferArrays()
      requires original !in pool.buffers && original.data !in pool.Arrays()
      modifies pool, pool.buffers, pool.Arrays(), original
      ensures Valid() && original.Valid()
      ensures copy.Valid() && copy.position == 0 && copy.Content() == old(original.Content()) && copy.HasRemaining()
      ensures original.position == old(original.limit) && original.limit == old(original.limit)
      ensures unchanged(original.data)
      ensures copy != original && copy.data != original.data
      ensures copy !in Buffers() && copy.data !in BufferArrays()
      ensures copy !in pool.buffers && copy.data !in pool.Arrays()
      ensures original !in pool.buffers && original.data !in pool.Arrays()
      ensures forall c :: c in queue && c.Chunk? ==> unchanged(c.buffer) && unchanged(c.buffer.data)
    {
      copy := pool.Take(original);
    }

    /** `addFirst` of a chunk whose buffer is neither queued nor pooled. */
    method PushFront(c: Chunk)
      requires Valid() && c.Chunk? && c.buffer.Valid() && c.buffer.HasRemaining()
      requires c.buffer !in Buffers() && c.buffer.data !in BufferArrays()
      requires c.buffer !in pool.buffers && c.buffer.data !in pool.Arrays()
      requires c.release.PoolGive? ==> c.release.buffer == c.buffer
      modifies this
      ensures Valid() && queue == [c] + old(queue) && released == old(released)
    {
      queue := [c] + queue;
      assert forall i :: 1 <= i < |queue| ==> queue[i] == old(queue)[i - 1];
    }

    /** The part of `drain` after a real chunk was taken off the head. */
    method DrainChunk<T>(head: Chunk, sampleRate: int, channels: int, result: T, afterPosition: int, afterLimit: int)
        returns (r: Result<T>)
      requires Valid() && sampleRate > 0 && channels > 0 && head.Chunk?
      requires head.buffer.Valid() && head.buffer.HasRemaining()
      requires head.buffer !in Buffers() && head.buffer.data !in BufferArrays()
      requires head.buffer !in pool.buffers && head.buffer.data !in pool.Arrays()
      requires head.release.PoolGive? ==> head.release.buffer == head.buffer
      requires 0 <= afterPosition <= afterLimit <= head.buffer.Capacity()
      modifies this, pool, pool.buffers, pool.Arrays(), head.buffer
      ensures Valid()
      ensures var limit := old(head.buffer.limit);
        var position := Min(afterPosition, limit);
        && r == Success(result)
        && released == old(released) + (if head.release.CallerRelease? then [head.release.id] else [])
        && (head.release.PoolGive? ==> head.buffer in pool.buffers)
        && (position == limit ==> queue == old(queue))
        && (position < limit ==>
              && |queue| == old(|queue|) + 1 && queue[1..] == old(queue)
              && queue[0].Chunk? && queue[0].release == PoolGive(queue[0].buffer)
              && queue[0].timeStretch == head.timeStretch
              && queue[0].timeUs == RequeueTimeAsWritten(head.timeUs, position - old(head.buffer.position), sampleRate, channels)
              && queue[0].buffer.Content() == old(head.buffer.data[position..limit]))
      ensures forall c :: c in old(queue) && c.Chunk? ==> unchanged(c.buffer) && unchanged(c.buffer.data)
    {
      var buffer := head.buffer;
      var size := buffer.Remaining();
      var limit := buffer.limit;
      RunAction(buffer, afterPosition, afterLimit);
      if buffer.HasRemaining() {
        var consumed := size - buffer.Remaining();
        var copy := CopyOut(buffer);
        Invoke(head.release);
        PushFront(Chunk(copy, RequeueTimeAsWritten(head.timeUs, consumed, sampleRate, channels), head.timeStretch, PoolGive(copy)));
      } else {
        Invoke(head.release);
      }
      r := Success(result);
    }
  }
}
