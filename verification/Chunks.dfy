// Values of the compressed secondary cache cut into chunks that fit allocator bins,
// and put together again: SplitValueIntoChunks and MergeChunksIntoValue.
module Chunks {

  type byte = bv8

  // malloc_bin_sizes_
  const BINS: seq<nat> := [128, 256, 512, 1024, 2048, 4096, 8192, 16384]

  // sizeof(CacheValueChunk) - 1: what a chunk takes besides its data
  const OVERHEAD: nat := 23

  // std::upper_bound: the first bin that is larger.
  function Upper(size: nat, i: nat): (r: nat)
    requires i <= |BINS|
    ensures i <= r <= |BINS| && (r < |BINS| ==> BINS[r] > size) && forall j :: i <= j < r ==> BINS[j] <= size
    decreases |BINS| - i
  {
    if i < |BINS| && BINS[i] <= size then Upper(size, i + 1) else i
  }

  // The allocation for the next chunk of a value with n bytes left: all of it if it is
  // too small or too large or nearly fills a bin, else the largest bin below it.
  function Allocation(n: nat): (a: nat)
    ensures n > 0 ==> OVERHEAD < a <= OVERHEAD + n
    ensures a == OVERHEAD + n || a in BINS
    // below the smallest and above the largest bin nothing is cut
    ensures OVERHEAD + n < BINS[0] || OVERHEAD + n >= BINS[|BINS| - 1] ==> a == OVERHEAD + n
    // between two bins all that is left goes into the larger one if less than the smallest
    // bin is wasted, else the smaller one is filled
    ensures forall i :: 0 <= i < |BINS| - 1 && BINS[i] <= OVERHEAD + n < BINS[i + 1] ==>
      a == if BINS[i + 1] - (OVERHEAD + n) < BINS[0] then OVERHEAD + n else BINS[i]
  {
    var u := Upper(OVERHEAD + n, 0);
    if u == 0 || u == |BINS| || BINS[u] - (OVERHEAD + n) < BINS[0] then OVERHEAD + n else BINS[u - 1]
  }

  // A chunk of these bytes fills its bin exactly.
  predicate FillsBin(data: seq<byte>) {
    OVERHEAD + |data| in BINS
  }

  // A chunk that leaves something over fills its bin.
  lemma PartFillsBin(left: seq<byte>)
    requires left != []
    ensures 0 < Allocation(|left|) - OVERHEAD <= |left|
    ensures left[Allocation(|left|) - OVERHEAD..] != [] ==> FillsBin(left[..Allocation(|left|) - OVERHEAD])
  {
    hide Allocation;
  }

  class Chunk {
    var next: Chunk?
    const data: seq<byte>

    constructor (data: seq<byte>)
      ensures this.data == data && next == null
    {
      this.data, next := data, null;
    }
  }

  // The chunks in a linked list, and what they hold together.
  ghost predicate Listed(head: Chunk?, nodes: seq<Chunk>)
    reads nodes
  {
    && head == At(nodes, 0)
    && forall i :: 0 <= i < |nodes| ==> nodes[i].next == At(nodes, i + 1)
  }

  ghost function At(nodes: seq<Chunk>, i: nat): Chunk? {
    if i < |nodes| then nodes[i] else null
  }

  ghost function Content(nodes: seq<Chunk>): seq<byte> {
    if nodes == [] then [] else Content(nodes[..|nodes| - 1]) + nodes[|nodes| - 1].data
  }

  // A list that starts behind a dummy node.
  ghost predicate Chain(dummy: Chunk, nodes: seq<Chunk>)
    reads dummy, nodes
  {
    && dummy !in nodes && Listed(dummy.next, nodes)
    && forall i, j :: 0 <= i < j < |nodes| ==> nodes[i] != nodes[j]
  }

  ghost function Last(dummy: Chunk, nodes: seq<Chunk>): Chunk {
    if nodes == [] then dummy else nodes[|nodes| - 1]
  }

  // current_chunk->next = new_chunk
  method Append(ghost dummy: Chunk, current: Chunk, ghost nodes: seq<Chunk>, data: seq<byte>) returns (chunk: Chunk)
    requires Chain(dummy, nodes) && current == Last(dummy, nodes)
    modifies current
    ensures fresh(chunk) && chunk.data == data && Chain(dummy, nodes + [chunk])
  {
    chunk := new Chunk(data);
    current.next := chunk;
    ghost var nodes' := nodes + [chunk];
    forall i | 0 <= i < |nodes'| ensures nodes'[i].next == At(nodes', i + 1) {
      if i < |nodes| - 1 { assert nodes[i].next == At(nodes, i + 1); }
    }
  }

  predicate NoneEmpty(nodes: seq<Chunk>) {
    forall i :: 0 <= i < |nodes| ==> nodes[i].data != []
  }

  // The first n chunks fill their bins.
  predicate Filled(nodes: seq<Chunk>, n: int) {
    forall i :: 0 <= i < |nodes| && i < n ==> FillsBin(nodes[i].data)
  }

  // How the chunks so far relate to the value.
  ghost predicate Consumed(value: seq<byte>, nodes: seq<Chunk>, left: seq<byte>) {
    && Content(nodes) + left == value
    && NoneEmpty(nodes)
    && Filled(nodes, if left == [] then |nodes| - 1 else |nodes|)
  }

  lemma FilledMore(nodes: seq<Chunk>, chunk: Chunk, full: bool)
    requires NoneEmpty(nodes) && Filled(nodes, |nodes|) && chunk.data != []
    requires full ==> FillsBin(chunk.data)
    ensures NoneEmpty(nodes + [chunk])
    ensures Filled(nodes + [chunk], if full then |nodes| + 1 else |nodes|)
  {
    hide FillsBin;
  }

  lemma ContentMore(nodes: seq<Chunk>, left: seq<byte>, chunk: Chunk, size: nat)
    requires size <= |left| && chunk.data == left[..size]
    ensures Content(nodes + [chunk]) + left[size..] == Content(nodes) + left
  {
    var nodes' := nodes + [chunk];
    assert nodes'[..|nodes'| - 1] == nodes;
    assert left == left[..size] + left[size..];
  }

  lemma ConsumeMore(value: seq<byte>, nodes: seq<Chunk>, left: seq<byte>, chunk: Chunk, size: nat)
    requires Consumed(value, nodes, left) && left != [] && 0 < size <= |left| && chunk.data == left[..size]
    requires left[size..] != [] ==> FillsBin(chunk.data)
    ensures Consumed(value, nodes + [chunk], left[size..])
  {
    hide FillsBin, Content, Filled, NoneEmpty;
    ContentMore(nodes, left, chunk, size);
    FilledMore(nodes, chunk, left[size..] != []);
  }

  // SplitValueIntoChunks
  method Split(value: seq<byte>, before: nat) returns (head: Chunk?, charge: nat, ghost nodes: seq<Chunk>)
    ensures Listed(head, nodes) && fresh(nodes)
    // nothing is lost or reordered
    ensures Content(nodes) == value
    ensures charge == before + |value| + OVERHEAD * |nodes|
    ensures forall i :: 0 <= i < |nodes| ==> nodes[i].data != []
    // every chunk but the last fills its bin exactly
    ensures forall i :: 0 <= i < |nodes| - 1 ==> FillsBin(nodes[i].data)
  {
    hide FillsBin, Allocation, Content, Listed;
    var dummy := new Chunk([]);
    var current := dummy;
    var left := value;
    nodes, charge := [], before;
    NoneListed();
    while left != []
      invariant fresh(nodes) && fresh(dummy) && Chain(dummy, nodes) && current == Last(dummy, nodes)
      invariant Consumed(value, nodes, left)
      invariant charge == before + |value| - |left| + OVERHEAD * |nodes|
      decreases |left|
    {
      PartFillsBin(left);
      var size := Allocation(|left|) - OVERHEAD;
      var chunk := Append(dummy, current, nodes, left[..size]);
      ConsumeMore(value, nodes, left, chunk, size);
      nodes := nodes + [chunk];
      current := chunk;
      left := left[size..];
      charge := charge + (OVERHEAD + size);
    }
    assert Content(nodes) + [] == Content(nodes);
    head := dummy.next;
  }

  lemma NoneListed()
    ensures Listed(null, []) && Content([]) == []
  {
  }

  // MergeChunksIntoValue
  method Merge(head: Chunk?, ghost nodes: seq<Chunk>) returns (value: seq<byte>)
    requires Listed(head, nodes)
    ensures value == Content(nodes)
  {
    var current, total := head, 0;
    ghost var i := 0;
    while current != null
      invariant i <= |nodes| && current == At(nodes, i)
      invariant total == |Content(nodes[..i])|
      decreases |nodes| - i
    {
      assert nodes[..i + 1][..i] == nodes[..i];
      total := total + |current.data|;
      current, i := current.next, i + 1;
    }
    assert nodes[..i] == nodes;
    current, value, i := head, [], 0;
    while current != null
      invariant i <= |nodes| && current == At(nodes, i)
      invariant value == Content(nodes[..i])
      decreases |nodes| - i
    {
      assert nodes[..i + 1][..i] == nodes[..i];
      value := value + current.data;
      current, i := current.next, i + 1;
    }
    assert nodes[..i] == nodes;
    // assert(result.size() == total_size)
    assert |value| == total;
  }

  // Splitting and merging gives the value back.
  method RoundTrip(value: seq<byte>) returns (merged: seq<byte>)
    ensures merged == value
  {
    var head, _, nodes := Split(value, 0);
    merged := Merge(head, nodes);
  }
}
