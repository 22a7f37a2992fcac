/** Reading a rope between a head and a tail (src/const_rope.cc, src/mem.cc).

While a reader walks a rope, other threads may append and prepend. Each load here therefore sees its own
memory: `mem(k)` is the memory at the reader's `k`-th load. All that is asked of these memories is what
`RopeProofs.SnapshotStable` gives: the buffers of the rope stay linked and keep their bytes. */
module ConstRope {
  import opened Basics
  import opened Rope
  import opened RopeProofs
  import Murmur

  /** The hash of a rope: each buffer is hashed with the hash so far as its seed. */
  function Fold(seed: nat, chunks: seq<Bytes>): nat
    decreases |chunks|
  {
    if chunks == [] then seed else Fold(Murmur.Hash64A(chunks[0], seed), chunks[1..])
  }

  ghost predicate HeldThroughout(mem: nat -> Heap, nodes: seq<nat>, chunks: seq<Bytes>) {
    NoDup(nodes) && forall k: nat :: HoldsRope(mem(k), nodes, chunks)
  }

  /** The pair of pointers a `const_rope` is, for the rope of `nodes`. */
  ghost predicate Ends(head: Option<nat>, tail: Option<nat>, nodes: seq<nat>) {
    if nodes == [] then head == None && tail == None else head == Some(nodes[0]) && tail == Some(Last(nodes))
  }

  lemma HeldAt(mem: nat -> Heap, nodes: seq<nat>, chunks: seq<Bytes>, k: nat, i: nat)
    requires HeldThroughout(mem, nodes, chunks) && i < |nodes|
    ensures var h := mem(k);
            && |nodes| == |chunks| && |h.data| == |h.next| && nodes[i] < |h.next| && h.data[nodes[i]] == chunks[i]
            && (i + 1 < |nodes| ==> h.next[nodes[i]] == Some(nodes[i + 1]))
            && (i + 1 < |nodes| <==> nodes[i] != Last(nodes))
  {
    assert HoldsRope(mem(k), nodes, chunks);
  }

  lemma HeldRest(mem: nat -> Heap, nodes: seq<nat>, chunks: seq<Bytes>)
    requires HeldThroughout(mem, nodes, chunks) && nodes != []
    ensures |chunks| == |nodes| && HeldThroughout(mem, nodes[1..], chunks[1..])
  {
    forall k: nat ensures HoldsRope(mem(k), nodes[1..], chunks[1..]) && |chunks| == |nodes| {
      assert HoldsRope(mem(k), nodes, chunks);
    }
    assert HoldsRope(mem(0), nodes, chunks);
  }

  lemma FlatSplit(chunks: seq<Bytes>, i: nat)
    requires i < |chunks|
    ensures Flat(chunks[i..]) == chunks[i] + Flat(chunks[i + 1..])
  {
    assert chunks[i..][1..] == chunks[i + 1..];
  }

  lemma FoldSplit(seed: nat, chunks: seq<Bytes>, i: nat)
    requires i < |chunks|
    ensures Fold(seed, chunks[i..]) == Fold(Murmur.Hash64A(chunks[i], seed), chunks[i + 1..])
  {
    assert chunks[i..][1..] == chunks[i + 1..];
  }

  class Reader {
    var head: Option<nat>
    var tail: Option<nat>

    constructor (head: Option<nat>, tail: Option<nat>)
      ensures this.head == head && this.tail == tail
    {
      this.head, this.tail := head, tail;
    }

    /** The number of bytes between head and tail. */
    method Size(mem: nat -> Heap, ghost nodes: seq<nat>, ghost chunks: seq<Bytes>) returns (s: nat)
      requires nodes != [] && Ends(head, tail, nodes) && HeldThroughout(mem, nodes, chunks)
      ensures s == |Flat(chunks)|
    {
      var m, k: nat := head.value, 1;
      ghost var i: nat := 0;
      HeldAt(mem, nodes, chunks, 0, 0);
      s := |mem(0).data[m]|;
      FlatSplit(chunks, 0);
      assert chunks[0..] == chunks;
      while m != tail.value
        invariant i < |nodes| && m == nodes[i] && |chunks| == |nodes|
        invariant s + |Flat(chunks[i + 1..])| == |Flat(chunks)|
        decreases |nodes| - i
      {
        HeldAt(mem, nodes, chunks, k, i);
        HeldAt(mem, nodes, chunks, k, i + 1);
        HeldAt(mem, nodes, chunks, k + 1, i);
        s := s + |mem(k).data[mem(k).next[m].value]|;
        m := mem(k + 1).next[m].value;
        FlatSplit(chunks, i + 1);
        k, i := k + 2, i + 1;
      }
      HeldAt(mem, nodes, chunks, k, i);
    }

    method Hash(mem: nat -> Heap, seed: nat, ghost nodes: seq<nat>, ghost chunks: seq<Bytes>) returns (h: nat)
      requires nodes != [] && Ends(head, tail, nodes) && HeldThroughout(mem, nodes, chunks)
      ensures h == Fold(seed, chunks)
    {
      var m, k: nat := head.value, 1;
      ghost var i: nat := 0;
      HeldAt(mem, nodes, chunks, 0, 0);
      h := Murmur.MurmurHash64A(mem(0).data[m], seed);
      FoldSplit(seed, chunks, 0);
      assert chunks[0..] == chunks;
      while m != tail.value
        invariant i < |nodes| && m == nodes[i] && |chunks| == |nodes|
        invariant Fold(h, chunks[i + 1..]) == Fold(seed, chunks)
        decreases |nodes| - i
      {
        HeldAt(mem, nodes, chunks, k, i);
        HeldAt(mem, nodes, chunks, k, i + 1);
        HeldAt(mem, nodes, chunks, k + 1, i);
        FoldSplit(h, chunks, i + 1);
        h := Murmur.MurmurHash64A(mem(k).data[mem(k).next[m].value], h);
        m := mem(k + 1).next[m].value;
        k, i := k + 2, i + 1;
      }
      HeldAt(mem, nodes, chunks, k, i);
    }

    /** Take the first buffer off; what is left is the rest of the rope. */
    method Pop(mem: nat -> Heap, k: nat, ghost nodes: seq<nat>, ghost chunks: seq<Bytes>) returns (r: nat)
      requires nodes != [] && Ends(head, tail, nodes) && HeldThroughout(mem, nodes, chunks)
      modifies this
      ensures r == nodes[0] && Ends(head, tail, nodes[1..])
      ensures |chunks| == |nodes| && HeldThroughout(mem, nodes[1..], chunks[1..])
    {
      HeldAt(mem, nodes, chunks, k, 0);
      HeldRest(mem, nodes, chunks);
      r := head.value;
      if head == tail {
        head, tail := None, None;
      } else {
        head := mem(k).next[r];
      }
    }

    /** Popping until nothing is left yields the bytes that `Size` counts and `Hash` folds. */
    method Drain(mem: nat -> Heap, ghost nodes: seq<nat>, ghost chunks: seq<Bytes>) returns (out: Bytes)
      requires Ends(head, tail, nodes) && HeldThroughout(mem, nodes, chunks)
      modifies this
      ensures out == Flat(chunks) && head == None && tail == None
    {
      out := [];
      var k: nat := 0;
      ghost var rest, todo := nodes, chunks;
      assert HoldsRope(mem(0), nodes, chunks);
      while head != None
        invariant Ends(head, tail, rest) && HeldThroughout(mem, rest, todo) && |rest| == |todo|
        invariant out + Flat(todo) == Flat(chunks)
        decreases |rest|
      {
        HeldAt(mem, rest, todo, k + 1, 0);
        var r := Pop(mem, k, rest, todo);
        out := out + mem(k + 1).data[r];
        rest, todo, k := rest[1..], todo[1..], k + 2;
      }
    }
  }

  // ---------------------------------------------------------------- recursion over one memory

  /** `nodes` is everything reachable from its first buffer. */
  ghost predicate Complete(h: Heap, nodes: seq<nat>) {
    Linked(h, nodes) && |h.data| == |h.next| && (nodes != [] ==> NextOf(h, Last(nodes)) == None)
  }

  function MemTail(h: Heap, x: nat, ghost nodes: seq<nat>): (r: nat)
    requires nodes != [] && x == nodes[0] && Complete(h, nodes)
    ensures r == Last(nodes)
    decreases |nodes|
  {
    assert |nodes| > 1 ==> NextOf(h, nodes[0]) == Some(nodes[1]);
    if h.next[x].Some? then MemTail(h, h.next[x].value, nodes[1..]) else x
  }

  /** Bytes from `x` to `tail`, or to the end when `tail` is null. */
  function MemSize(h: Heap, x: Option<nat>, tail: Option<nat>, ghost nodes: seq<nat>): (r: nat)
    requires Linked(h, nodes) && NoDup(nodes) && |h.data| == |h.next|
    requires nodes == [] ==> x == None && tail == None
    requires nodes != [] ==> x == Some(nodes[0])
    requires nodes != [] ==> tail == Some(Last(nodes)) || (tail == None && NextOf(h, Last(nodes)) == None)
    ensures r == |Flat(ChunksOf(h, nodes))|
    decreases |nodes|
  {
    assert nodes != [] ==> ChunksOf(h, nodes)[1..] == ChunksOf(h, nodes[1..]);
    assert |nodes| > 1 ==> NextOf(h, nodes[0]) == Some(nodes[1]) && nodes[0] != Last(nodes);
    if x == tail then
      if x.Some? then assert nodes[1..] == []; |h.data[x.value]| else 0
    else |h.data[x.value]| + MemSize(h, h.next[x.value], tail, nodes[1..])
  }

  /** With no append in flight, `mem_tail` of the head is the tail, and the size of the entry is the
      number of bytes of the prepends newest first, the original, and the appends in order. */
  lemma SettledRope(chunks: seq<Bytes>, run: seq<State>)
    requires IsRun(chunks, run) && NoAppendInFlight(run[|run| - 1])
    ensures var s := run[|run| - 1]; var line := NewestFirst(s.log) + s.orig + InOrder(s.log);
            && line != [] && line[0] == s.head && Complete(s.heap, line) && NoDup(line)
            && MemTail(s.heap, s.head, line) == s.tail
            && MemSize(s.heap, Some(s.head), None, line) == |Flat(ChunksOf(s.heap, line))|
  {
    NothingLost(chunks, run);
    RunInv(chunks, run);
  }

  function BytesIn(h: Heap, r: seq<nat>): nat { |Flat(ChunksOf(h, r))| }

  /** The bytes of all ropes appended and prepended. */
  function Published(h: Heap, log: seq<Event>): nat {
    if log == [] then 0 else Published(h, log[..|log| - 1]) + BytesIn(h, log[|log| - 1].r)
  }

  lemma {:induction false} FlatJoin(a: seq<Bytes>, b: seq<Bytes>)
    ensures |Flat(a + b)| == |Flat(a)| + |Flat(b)|
  {
    if a == [] {
      assert a + b == b;
    } else {
      FlatJoin(a[1..], b);
      assert (a + b)[1..] == a[1..] + b;
    }
  }

  lemma BytesJoin(h: Heap, a: seq<nat>, b: seq<nat>)
    ensures BytesIn(h, a + b) == BytesIn(h, a) + BytesIn(h, b)
  {
    assert ChunksOf(h, a + b) == ChunksOf(h, a) + ChunksOf(h, b);
    FlatJoin(ChunksOf(h, a), ChunksOf(h, b));
  }

  lemma {:induction false} LogicalBytes(h: Heap, orig: seq<nat>, log: seq<Event>)
    ensures BytesIn(h, Logical(orig, log)) == BytesIn(h, orig) + Published(h, log)
  {
    if log != [] {
      var front, e := log[..|log| - 1], log[|log| - 1];
      LogicalBytes(h, orig, front);
      if e.Prepended? { BytesJoin(h, e.r, Logical(orig, front)); } else { BytesJoin(h, Logical(orig, front), e.r); }
    }
  }

  /** With no append in flight, the size of an entry is that of the rope it was made with and of every rope
      appended or prepended since: what `append` and `prepend` of the cache add to its byte counter. */
  lemma EntrySize(chunks: seq<Bytes>, run: seq<State>)
    requires IsRun(chunks, run) && NoAppendInFlight(run[|run| - 1])
    ensures var s := run[|run| - 1]; var line := NewestFirst(s.log) + s.orig + InOrder(s.log);
            && line != [] && line[0] == s.head && Complete(s.heap, line) && NoDup(line)
            && MemSize(s.heap, Some(s.head), None, line) == BytesIn(s.heap, s.orig) + Published(s.heap, s.log)
  {
    SettledRope(chunks, run);
    var s := run[|run| - 1];
    LogicalShape(s.orig, s.log);
    LogicalBytes(s.heap, s.orig, s.log);
  }

  /** A snapshot taken in a run may be read from any later memories of that run. */
  lemma SnapshotReadable(chunks: seq<Bytes>, run: seq<State>, i: nat, t: nat, at: nat -> nat)
    requires IsRun(chunks, run) && i < |run| && t in run[i].running && run[i].running[t].Snapshot?
    requires forall k: nat :: i <= at(k) < |run|
    ensures var seen := run[i].running[t].seen;
            var mem := (k: nat) => if at(k) < |run| then run[at(k)].heap else Heap([], []);
            HeldThroughout(mem, seen, ChunksOf(run[i].heap, seen))
  {
    SnapshotStable(chunks, run, i, i, t);
    var seen := run[i].running[t].seen;
    forall k: nat ensures HoldsRope(run[at(k)].heap, seen, ChunksOf(run[i].heap, seen)) {
      SnapshotStable(chunks, run, i, at(k), t);
    }
  }
}
