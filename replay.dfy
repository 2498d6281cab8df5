// The experience replay buffer (src/rl/ReplayBuffer.cpp): a ring buffer of
// at most `maxSize` transitions that overwrites its oldest entry once full,
// and draws batches by index. The random draws are a parameter.
module Replay {
  import opened Common
  import opened Spaces

  class ReplayBuffer {
    /** `buffer_`: the stored transitions, in slot order. */
    var buffer: seq<Transition>
    /** `cursor_`: the slot the next `add` writes once the buffer is full. */
    var cursor: int
    /** `max_size_`. */
    var maxSize: int
    /** Every transition ever added, oldest first. */
    ghost var added: seq<Transition>

    ghost predicate Valid()
      reads this
    {
      Ring(buffer, cursor, maxSize, added)
    }

    /** `ReplayBuffer(max_size)`: empty, cursor at slot 0. */
    constructor(capacity: int)
      requires capacity > 0
      ensures Valid() && maxSize == capacity && buffer == [] && added == []
    {
      buffer := [];
      cursor := 0;
      maxSize := capacity;
      added := [];
    }

    /** `size()`. */
    function Size(): (n: int)
      reads this
      requires Valid()
      ensures n == if |added| < maxSize then |added| else maxSize
    {
      |buffer|
    }

    /**
     * `add`: append while there is room, otherwise overwrite the slot at the
     * cursor; the cursor then advances by one modulo `maxSize`.
     */
    method Add(t: Transition)
      requires Valid()
      modifies this
      ensures Valid() && maxSize == old(maxSize) && added == old(added) + [t]
      ensures old(|buffer|) < maxSize ==> buffer == old(buffer) + [t]
      ensures old(|buffer|) == maxSize ==> buffer == old(buffer)[old(cursor) := t]
      ensures cursor == (old(cursor) + 1) % maxSize
    {
      var buf := buffer;
      if |buffer| < maxSize {
        buf := buffer + [t];
      } else {
        buf := buffer[cursor := t];
      }
      var c := (cursor + 1) % maxSize;
      RingAdd(buffer, cursor, maxSize, added, t, buf, c);
      buffer, cursor, added := buf, c, added + [t];
    }

    /**
     * `sample`: fails when more transitions are asked for than are stored;
     * otherwise the i-th pick is the slot `draws[i] mod size`.
     */
    method Sample(batchSize: nat, draws: seq<nat>) returns (r: Result<seq<Transition>>)
      requires Valid() && |draws| >= batchSize
      ensures r.Err? <==> batchSize > |buffer|
      ensures r.Ok? ==> |r.value| == batchSize
      ensures r.Ok? ==> forall i :: 0 <= i < batchSize ==> r.value[i] == buffer[draws[i] % |buffer|] && r.value[i] in buffer
    {
      if batchSize > |buffer| {
        return Err("Requested batch size larger than buffer size.");
      }
      var batch: seq<Transition> := [];
      var current := 0;
      while current < batchSize
        invariant 0 <= current <= batchSize && |batch| == current
        invariant forall i :: 0 <= i < current ==> batch[i] == buffer[draws[i] % |buffer|] && batch[i] in buffer
      {
        var index := draws[current] % |buffer|;
        batch := batch + [buffer[index]];
        current := current + 1;
      }
      return Ok(batch);
    }
  }

  /** The ring read from cursor c: oldest entry first. */
  function Oldest(buf: seq<Transition>, c: int): seq<Transition>
    requires 0 <= c <= |buf|
  {
    buf[c..] + buf[..c]
  }

  /**
   * The ring invariant: while filling, the cursor sits just past the last
   * slot; once full it marks the oldest entry, and reading the ring from the
   * cursor gives the most recent min(|added|, max) transitions, oldest first.
   */
  ghost predicate Ring(buf: seq<Transition>, c: int, max: int, added: seq<Transition>)
  {
    max > 0 && 0 <= c < max && |buf| <= max &&
    (|buf| < max ==> c == |buf|) &&
    |buf| == (if |added| < max then |added| else max) &&
    Oldest(buf, c) == added[|added| - |buf|..]
  }

  /** One `add` keeps the ring invariant, with the new transition as the most recent. */
  lemma RingAdd(buf: seq<Transition>, c: int, max: int, added: seq<Transition>, t: Transition, buf': seq<Transition>, c': int)
    requires Ring(buf, c, max, added)
    requires buf' == if |buf| < max then buf + [t] else buf[c := t]
    requires c' == (c + 1) % max
    ensures Ring(buf', c', max, added + [t])
  {
    var added' := added + [t];
    if |buf| < max {
      assert added == buf;
      if |buf'| < max {
        ModBelow(c + 1, max);
      } else {
        ModBelow(0, max);
        assert c' == 0;
      }
      assert Oldest(buf', c') == buf';
    } else {
      OldestAfterOverwrite(buf, c, t, buf', c');
      assert added'[|added'| - max..] == added[|added| - max..][1..] + [t];
    }
  }

  /**
   * Overwriting the oldest slot of a full ring and advancing the cursor drops
   * the oldest entry and appends the new one.
   */
  lemma OldestAfterOverwrite(buf: seq<Transition>, c: int, t: Transition, buf': seq<Transition>, c': int)
    requires 0 <= c < |buf| && buf' == buf[c := t] && c' == (c + 1) % |buf|
    ensures Oldest(buf', c') == Oldest(buf, c)[1..] + [t]
  {
    ModBelow(0, |buf|);
    if c + 1 < |buf| {
      ModBelow(c + 1, |buf|);
      assert c' == c + 1;
      assert buf'[c'..] == buf[c + 1..];
      assert buf'[..c'] == buf[..c] + [t];
    } else {
      assert c' == 0;
      assert buf' == buf[..c] + [t];
    }
  }

  /**
   * The buffer holds exactly the most recent min(k, max) of the k added
   * transitions: the same multiset, in ring order.
   */
  lemma RingHoldsMostRecent(buf: seq<Transition>, c: int, max: int, added: seq<Transition>)
    requires Ring(buf, c, max, added)
    ensures |buf| == (if |added| < max then |added| else max)
    ensures multiset(buf) == multiset(added[|added| - |buf|..])
  {
    assert buf == buf[..c] + buf[c..];
    calc {
      multiset(buf);
      multiset(buf[..c]) + multiset(buf[c..]);
      multiset(Oldest(buf, c));
    }
  }
}
