/**
 * The chunk-oriented step as both jobs declare it: read up to `size` items,
 * hand each to the processor (an absent result filters the item out), write the
 * survivors of the chunk as one batch, and go on with the next chunk until the
 * reader is exhausted.
 */
module ChunkOriented {
  import opened Batch

  /** Both jobs declare `chunk(5, ...)`. */
  const CHUNK_SIZE: nat := 5

  /** The items the processor lets through, transformed, in input order. */
  function FilterMap<T, U>(items: seq<T>, process: T -> Option<U>): (out: seq<U>)
    ensures |out| + FilteredCount(items, process) == |items|
  {
    if |items| == 0 then []
    else
      (match process(items[0]) case Some(u) => [u] case None => []) + FilterMap(items[1..], process)
  }

  /** How many items the processor filters out. */
  function FilteredCount<T, U>(items: seq<T>, process: T -> Option<U>): nat
  {
    if |items| == 0 then 0
    else (if process(items[0]).None? then 1 else 0) + FilteredCount(items[1..], process)
  }

  /** One committed chunk: how many items it read, and the batch handed to the writer. */
  datatype Chunk<U> = Chunk(readCount: nat, written: seq<U>)

  /** Everything the writer received, chunk after chunk. */
  function Written<U>(chunks: seq<Chunk<U>>): seq<U>
  {
    if |chunks| == 0 then [] else chunks[0].written + Written(chunks[1..])
  }

  /** Items read over all chunks. */
  function TotalRead<U>(chunks: seq<Chunk<U>>): nat
  {
    if |chunks| == 0 then 0 else chunks[0].readCount + TotalRead(chunks[1..])
  }

  /**
   * The step over a source that yields `items`. Every chunk but the last reads
   * exactly `size` items, the last reads between 1 and `size`, and an exhausted
   * source opens no further chunk.
   */
  function ChunkStep<T, U>(items: seq<T>, process: T -> Option<U>, size: nat): (chunks: seq<Chunk<U>>)
    requires size >= 1
    ensures |chunks| == (|items| + size - 1) / size
    ensures TotalRead(chunks) == |items|
    ensures forall i :: 0 <= i < |chunks| ==> 1 <= chunks[i].readCount <= size
    ensures forall i :: 0 <= i < |chunks| - 1 ==> chunks[i].readCount == size
    decreases |items|
  {
    if |items| == 0 then []
    else
      var n := if |items| < size then |items| else size;
      CeilStep(|items|, size);
      [Chunk(n, FilterMap(items[..n], process))] + ChunkStep(items[n..], process, size)
  }

  /** One more chunk accounts for `size` more items, or for the last few. */
  lemma CeilStep(len: nat, size: nat)
    requires len >= 1 && size >= 1
    ensures len < size ==> (len + size - 1) / size == 1
    ensures len >= size ==> (len + size - 1) / size == 1 + (len - size + size - 1) / size
  {
    if len >= size {
      var k := len - size + size - 1;
      assert len + size - 1 == k + size;
      DivAddOne(k, size);
    } else {
      DivUnique(len + size - 1, size, 1, len - 1);
    }
  }

  lemma DivAddOne(k: nat, size: nat)
    requires size >= 1
    ensures (k + size) / size == k / size + 1
  {
    var q, r := k / size, k % size;
    assert k == q * size + r;
    assert k + size == (q + 1) * size + r;
    DivUnique(k + size, size, q + 1, r);
  }

  lemma DivUnique(x: int, size: int, q: int, r: int)
    requires size >= 1 && 0 <= r < size && x == q * size + r
    ensures x / size == q
  {
    var q', r' := x / size, x % size;
    assert x == q' * size + r';
    MulDistributes(q, q', size);
    assert (q - q') * size == r' - r;
    if q > q' {
      MulAtLeast(q - q', size);
    } else if q < q' {
      MulDistributes(q', q, size);
      MulAtLeast(q' - q, size);
    }
  }

  lemma MulDistributes(a: int, b: int, size: int)
    ensures (a - b) * size == a * size - b * size
  {
  }

  lemma MulAtLeast(d: int, size: int)
    requires d >= 1 && size >= 1
    ensures d * size >= size
  {
  }

  lemma {:induction false} FilterMapAppend<T, U>(a: seq<T>, b: seq<T>, process: T -> Option<U>)
    ensures FilterMap(a + b, process) == FilterMap(a, process) + FilterMap(b, process)
  {
    if |a| > 0 {
      assert (a + b)[0] == a[0];
      assert (a + b)[1..] == a[1..] + b;
      FilterMapAppend(a[1..], b, process);
    } else {
      assert a + b == b;
    }
  }

  lemma {:induction false} FilteredCountAppend<T, U>(a: seq<T>, b: seq<T>, process: T -> Option<U>)
    ensures FilteredCount(a + b, process) == FilteredCount(a, process) + FilteredCount(b, process)
  {
    if |a| > 0 {
      assert (a + b)[0] == a[0];
      assert (a + b)[1..] == a[1..] + b;
      FilteredCountAppend(a[1..], b, process);
    } else {
      assert a + b == b;
    }
  }

  /** The writer receives exactly the processed survivors, in source order, across chunks. */
  lemma {:induction false} ChunkStepWritesSurvivorsInOrder<T, U>(items: seq<T>, process: T -> Option<U>, size: nat)
    requires size >= 1
    ensures Written(ChunkStep(items, process, size)) == FilterMap(items, process)
    decreases |items|
  {
    if |items| > 0 {
      var n := if |items| < size then |items| else size;
      var chunks := ChunkStep(items, process, size);
      assert chunks[1..] == ChunkStep(items[n..], process, size);
      ChunkStepWritesSurvivorsInOrder(items[n..], process, size);
      FilterMapAppend(items[..n], items[n..], process);
      assert items[..n] + items[n..] == items;
    }
  }

  /** Items read = items written + items filtered. */
  lemma ChunkStepAccounting<T, U>(items: seq<T>, process: T -> Option<U>, size: nat)
    requires size >= 1
    ensures TotalRead(ChunkStep(items, process, size))
            == |Written(ChunkStep(items, process, size))| + FilteredCount(items, process)
  {
    ChunkStepWritesSurvivorsInOrder(items, process, size);
  }

  /** A chunk never writes more than it read. */
  lemma ChunkWritesAtMostItsReads<T, U>(items: seq<T>, process: T -> Option<U>, size: nat)
    requires size >= 1
    ensures forall c :: c in ChunkStep(items, process, size) ==> |c.written| <= c.readCount
    decreases |items|
  {
    if |items| > 0 {
      var n := if |items| < size then |items| else size;
      ChunkWritesAtMostItsReads(items[n..], process, size);
    }
  }

  /** A processor that never filters: every item reaches the writer, transformed, in order. */
  lemma {:induction false} NonFilteringWritesEveryItem<T, U>(items: seq<T>, process: T -> Option<U>)
    requires forall x :: process(x).Some?
    ensures FilterMap(items, process) == seq(|items|, i requires 0 <= i < |items| => process(items[i]).value)
    ensures FilteredCount(items, process) == 0
  {
    if |items| > 0 {
      NonFilteringWritesEveryItem(items[1..], process);
    }
  }
}
