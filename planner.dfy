/** The chunk planner: the windows of the batch that the dispatch loop hands
    to the service, computed from the batch length and the chunk size alone.

    The loop of client.go walks an offset cursor through the batch in full
    windows of `size` elements while `offset + size <= n`, and then sends one
    remainder window `[offset, n)` if it is not empty. `PlanFrom` is that walk
    as a function of the cursor; `Chunks` starts it at offset 0. */
module ChunkPlanner {

  import opened Wrappers

  /** The half-open window `[lo, hi)` of the batch. */
  datatype Window = Window(lo: nat, hi: nat)

  /** The full windows the loop sends, then the remainder window, if any. */
  datatype Plan = Plan(full: seq<Window>, rest: Option<Window>)

  /** All windows of a plan, in the order they are sent. */
  function Windows(p: Plan): (ws: seq<Window>)
    ensures |ws| == |p.full| + (if p.rest.Some? then 1 else 0)
  {
    match p.rest
    case None => p.full
    case Some(w) => p.full + [w]
  }

  function Min(a: nat, b: nat): (m: nat) { if a <= b then a else b }

  /** The walk of the cursor from `offset` on: a full window while one
      fits, then what is left of `[offset, n)`, if anything. */
  function PlanFrom(offset: nat, n: nat, size: nat): (p: Plan)
    requires size > 0
    decreases n - offset
    ensures p.full == [] <==> offset + size > n
  {
    if offset + size <= n then
      var tail := PlanFrom(offset + size, n, size);
      Plan([Window(offset, offset + size)] + tail.full, tail.rest)
    else
      Plan([], if offset < n then Some(Window(offset, n)) else None)
  }

  /** The plan of a whole dispatch. A size of 0 means dispatching is
      disabled: nothing is ever sent. */
  function Chunks(n: nat, size: nat): (p: Plan)
    ensures size == 0 ==> Windows(p) == []
  {
    if size == 0 then Plan([], None) else PlanFrom(0, n, size)
  }

  /** Every window of the walk from `offset` lies in `[offset, n)`; a full
      window has exactly `size` elements; the remainder is non-empty and
      shorter than `size`. */
  lemma {:induction false} PlanFromShape(offset: nat, n: nat, size: nat)
    requires size > 0
    decreases n - offset
    ensures forall i :: 0 <= i < |PlanFrom(offset, n, size).full| ==>
      offset <= PlanFrom(offset, n, size).full[i].lo &&
      PlanFrom(offset, n, size).full[i].hi == PlanFrom(offset, n, size).full[i].lo + size &&
      PlanFrom(offset, n, size).full[i].hi <= n
    ensures PlanFrom(offset, n, size).rest.Some? ==>
      offset <= PlanFrom(offset, n, size).rest.value.lo < PlanFrom(offset, n, size).rest.value.hi == n &&
      PlanFrom(offset, n, size).rest.value.hi - PlanFrom(offset, n, size).rest.value.lo < size
  {
    if offset + size <= n {
      PlanFromShape(offset + size, n, size);
    }
  }

  /** No chunk sent is empty, none is longer than `size`, none leaves the
      batch; all but the remainder have exactly `size` elements. */
  lemma ChunksShape(n: nat, size: nat)
    ensures forall i :: 0 <= i < |Windows(Chunks(n, size))| ==>
      Windows(Chunks(n, size))[i].lo < Windows(Chunks(n, size))[i].hi <= n &&
      Windows(Chunks(n, size))[i].hi - Windows(Chunks(n, size))[i].lo <= size
    ensures forall i :: 0 <= i < |Chunks(n, size).full| ==>
      Chunks(n, size).full[i].hi - Chunks(n, size).full[i].lo == size
    ensures Chunks(n, size).rest.Some? ==>
      Chunks(n, size).rest.value.hi - Chunks(n, size).rest.value.lo < size
    ensures Chunks(n, size).rest.Some? ==> Chunks(n, size).rest.value.hi == n
  {
    if size > 0 {
      PlanFromShape(0, n, size);
    }
  }

  /** The chunk of `batch` under window `w` (empty if `w` leaves the batch,
      which no window of a plan does). */
  function Slice<T>(batch: seq<T>, w: Window): (chunk: seq<T>)
  {
    if w.lo <= w.hi <= |batch| then batch[w.lo..w.hi] else []
  }

  /** The chunks of `batch` that the windows `ws` select. */
  function Slices<T>(batch: seq<T>, ws: seq<Window>): (chunks: seq<seq<T>>)
    ensures |chunks| == |ws|
  {
    if ws == [] then [] else [Slice(batch, ws[0])] + Slices(batch, ws[1..])
  }

  /** The i-th chunk is the batch under the i-th window. */
  lemma {:induction false} SlicesAt<T>(batch: seq<T>, ws: seq<Window>, i: nat)
    requires i < |ws|
    ensures Slices(batch, ws)[i] == Slice(batch, ws[i])
  {
    if i > 0 {
      SlicesAt(batch, ws[1..], i - 1);
    }
  }

  /** The chunks laid end to end. */
  function Flatten<T>(chunks: seq<seq<T>>): (s: seq<T>)
  {
    if chunks == [] then [] else chunks[0] + Flatten(chunks[1..])
  }

  lemma SlicesCons<T>(batch: seq<T>, w: Window, ws: seq<Window>)
    ensures Slices(batch, [w] + ws) == [Slice(batch, w)] + Slices(batch, ws)
  {
    assert ([w] + ws)[1..] == ws;
  }

  lemma FlattenCons<T>(chunk: seq<T>, chunks: seq<seq<T>>)
    ensures Flatten([chunk] + chunks) == chunk + Flatten(chunks)
  {
    assert ([chunk] + chunks)[1..] == chunks;
  }

  lemma WindowsCons(w: Window, full: seq<Window>, rest: Option<Window>)
    ensures Windows(Plan([w] + full, rest)) == [w] + Windows(Plan(full, rest))
  {
    if rest.Some? {
      assert ([w] + full) + [rest.value] == [w] + (full + [rest.value]);
    }
  }

  /** One full window in front of windows that tile the rest of the batch
      tiles one window more. */
  lemma TileStep<T>(batch: seq<T>, offset: nat, size: nat, ws: seq<Window>)
    requires offset + size <= |batch|
    requires Flatten(Slices(batch, ws)) == batch[offset + size..]
    ensures Flatten(Slices(batch, [Window(offset, offset + size)] + ws)) == batch[offset..]
  {
    var w := Window(offset, offset + size);
    SlicesCons(batch, w, ws);
    FlattenCons(Slice(batch, w), Slices(batch, ws));
    assert batch[offset..] == batch[offset..offset + size] + batch[offset + size..];
  }

  /** The walk from `offset` tiles one window more than the walk from the
      next cursor. */
  lemma TileCons<T>(batch: seq<T>, offset: nat, size: nat)
    requires 0 < size && offset + size <= |batch|
    requires Flatten(Slices(batch, Windows(PlanFrom(offset + size, |batch|, size)))) == batch[offset + size..]
    ensures Flatten(Slices(batch, Windows(PlanFrom(offset, |batch|, size)))) == batch[offset..]
  {
    var tail := PlanFrom(offset + size, |batch|, size);
    var w := Window(offset, offset + size);
    assert PlanFrom(offset, |batch|, size) == Plan([w] + tail.full, tail.rest);
    WindowsCons(w, tail.full, tail.rest);
    TileStep(batch, offset, size, Windows(tail));
  }

  /** Sending the windows from `offset` on delivers exactly the rest of the
      batch, in its original order. */
  lemma {:induction false} TileFrom<T>(batch: seq<T>, offset: nat, size: nat)
    requires 0 < size && offset <= |batch|
    ensures Flatten(Slices(batch, Windows(PlanFrom(offset, |batch|, size)))) == batch[offset..]
    decreases |batch| - offset
  {
    var p := PlanFrom(offset, |batch|, size);
    if offset + size <= |batch| {
      TileFrom(batch, offset + size, size);
      TileCons(batch, offset, size);
    } else if offset < |batch| {
      var w := Window(offset, |batch|);
      assert Windows(p) == [w] + [];
      SlicesCons(batch, w, []);
      FlattenCons(Slice(batch, w), []);
    } else {
      assert Slices(batch, Windows(p)) == [];
    }
  }

  /** With a positive size, the chunks sent concatenate back to the batch. */
  lemma ChunksTile<T>(batch: seq<T>, size: nat)
    requires size > 0
    ensures Flatten(Slices(batch, Windows(Chunks(|batch|, size)))) == batch
  {
    TileFrom(batch, 0, size);
  }

  /** A multiple of `size` strictly between `-size` and `size` is 0. */
  lemma SmallMultiple(size: int, x: int)
    requires 0 < size && -size < size * x < size
    ensures x == 0
  {
  }

  /** Taking one full window off `m` takes one off the quotient and leaves
      the remainder alone. */
  lemma DivStep(m: nat, size: nat)
    requires 0 < size <= m
    ensures m / size == (m - size) / size + 1
    ensures m % size == (m - size) % size
  {
    var q, r := (m - size) / size, (m - size) % size;
    var q0, r0 := m / size, m % size;
    assert m == size * (q + 1) + r;
    assert m == size * q0 + r0;
    assert size * (q0 - q - 1) == r - r0;
    SmallMultiple(size, q0 - q - 1);
  }

  /** The walk from `offset` makes `(n - offset) / size` full windows and
      ends with the remainder window exactly when `size` does not divide
      `n - offset`. */
  lemma {:induction false} PlanFromCount(offset: nat, n: nat, size: nat)
    requires 0 < size && offset <= n
    ensures |PlanFrom(offset, n, size).full| == (n - offset) / size
    ensures PlanFrom(offset, n, size).rest ==
      if (n - offset) % size == 0 then None
      else Some(Window(n - (n - offset) % size, n))
    decreases n - offset
  {
    if offset + size <= n {
      PlanFromCount(offset + size, n, size);
      DivStep(n - offset, size);
    } else {
      assert (n - offset) / size == 0 && (n - offset) % size == n - offset;
    }
  }

  /** The i-th full window of the walk from `offset` starts `i * size` past
      the cursor. */
  lemma {:induction false} PlanFromStarts(offset: nat, n: nat, size: nat, i: nat)
    requires 0 < size && i < |PlanFrom(offset, n, size).full|
    ensures PlanFrom(offset, n, size).full[i].lo == offset + i * size
    decreases i
  {
    if i > 0 {
      var tail := PlanFrom(offset + size, n, size);
      assert PlanFrom(offset, n, size).full[i] == tail.full[i - 1];
      PlanFromStarts(offset + size, n, size, i - 1);
      assert (i - 1) * size + size == i * size;
    }
  }

  /** The plan of a whole batch in closed form: `n / size` full windows,
      window i is `[i * size, i * size + size)`, and the remainder window
      `[n - n % size, n)` is there exactly when `n % size != 0`. */
  lemma ChunksClosedForm(n: nat, size: nat)
    requires size > 0
    ensures |Chunks(n, size).full| == n / size
    ensures forall i :: 0 <= i < n / size ==>
      Chunks(n, size).full[i] == Window(i * size, i * size + size)
    ensures Chunks(n, size).rest ==
      if n % size == 0 then None else Some(Window(n - n % size, n))
  {
    PlanFromCount(0, n, size);
    PlanFromShape(0, n, size);
    forall i | 0 <= i < n / size
      ensures Chunks(n, size).full[i] == Window(i * size, i * size + size)
    {
      PlanFromStarts(0, n, size, i);
    }
  }

  /** The window `[i * size, min(i * size + size, n))`. */
  function NthWindow(n: nat, size: nat, i: nat): (w: Window)
  {
    Window(i * size, Min(i * size + size, n))
  }

  /** The i-th chunk sent is `[i * size, min(i * size + size, n))`: the
      cursor moves forward by exactly `size` per chunk, and only the last
      chunk may be cut short by the end of the batch. */
  lemma ChunkAt(n: nat, size: nat, i: nat)
    requires size > 0 && i < |Windows(Chunks(n, size))|
    ensures Windows(Chunks(n, size))[i] == NthWindow(n, size, i)
  {
    var p := Chunks(n, size);
    ChunksClosedForm(n, size);
    PlanFromShape(0, n, size);
    if i < |p.full| {
      assert Windows(p)[i] == p.full[i];
    } else {
      assert n == (n / size) * size + n % size;
      assert Windows(p)[i] == p.rest.value;
    }
  }
}
