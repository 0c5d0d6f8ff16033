/** The chunked bump allocator for per-frame elements. */
module ArenaModel {
  import opened Basics
  import opened Alignment

  /** Addresses are 64-bit. */
  const ADDRESS_LIMIT: nat := 0x1_0000_0000_0000_0000

  datatype Chunk = Chunk(start: nat, size: nat, offset: nat) {
    function End(): nat { start + size }
  }

  datatype Layout = Layout(size: nat, align: nat)

  /** Where an object of this layout would go in the chunk. */
  function AlignedAt(c: Chunk, layout: Layout): nat
    requires layout.align > 0
  {
    NextMultiple(c.offset, layout.align)
  }

  /** The bump: fails when the aligned object would end past the chunk (or the address space). */
  function Allocate(c: Chunk, layout: Layout): Option<nat>
    requires layout.align > 0
  {
    var at := AlignedAt(c, layout);
    if at >= ADDRESS_LIMIT || at + layout.size >= ADDRESS_LIMIT then None
    else if at + layout.size <= c.End() then Some(at)
    else None
  }

  /** A pristine chunk takes anything whose size and worst padding it can hold. */
  lemma PristineChunkFits(c: Chunk, layout: Layout)
    requires layout.align > 0 && c.offset == c.start && c.End() < ADDRESS_LIMIT
    requires layout.size + layout.align - 1 <= c.size
    ensures Allocate(c, layout).Some?
  {
    NextMultipleIsLeast(c.offset, layout.align, 0);
  }

  /** An object of this layout may go at the address: in the free part of the chunk, aligned. */
  predicate Room(c: Chunk, layout: Layout, at: nat)
    requires layout.align > 0
  {
    c.offset <= at && at % layout.align == 0 && at + layout.size <= c.start + c.size
  }

  ghost predicate HasRoom(c: Chunk, layout: Layout)
    requires layout.align > 0
  {
    exists at: nat :: Room(c, layout, at)
  }

  ghost predicate FirstRoom(c: Chunk, layout: Layout, at: nat)
    requires layout.align > 0
  {
    Room(c, layout, at) && forall other: nat :: Room(c, layout, other) ==> at <= other
  }

  /** An allocation succeeds exactly if there is room, and takes the first place there is. */
  lemma AllocateIsFirst(c: Chunk, layout: Layout)
    requires layout.align > 0 && c.start + c.size < ADDRESS_LIMIT
    ensures Allocate(c, layout).Some? <==> HasRoom(c, layout)
    ensures Allocate(c, layout).Some? ==> FirstRoom(c, layout, Allocate(c, layout).value)
  {
    hide NextMultiple;
    var at := NextMultiple(c.offset, layout.align);
    NextMultipleIsLeast(c.offset, layout.align, 0);
    forall other: nat | Room(c, layout, other) ensures at <= other {
      NextMultipleIsLeast(c.offset, layout.align, other);
    }
    assert at + layout.size <= c.start + c.size ==> Room(c, layout, at);
  }

  predicate Apart(a: nat, aSize: nat, b: nat, bSize: nat) {
    a + aSize <= b || b + bSize <= a
  }

  function WriteBytes(memory: map<nat, Byte>, at: nat, bytes: seq<Byte>): (r: map<nat, Byte>)
    ensures forall p :: p in r <==> p in memory || at <= p < at + |bytes|
    ensures forall p | p in r :: r[p] == if at <= p < at + |bytes| then bytes[p - at] else memory[p]
  {
    if bytes == [] then memory
    else WriteBytes(memory, at, bytes[..|bytes| - 1])[at + |bytes| - 1 := bytes[|bytes| - 1]]
  }

  ghost predicate Holds(memory: map<nat, Byte>, at: nat, bytes: seq<Byte>) {
    forall k :: 0 <= k < |bytes| ==> ByteAt(memory, at, bytes, k)
  }

  predicate ByteAt(memory: map<nat, Byte>, at: nat, bytes: seq<Byte>, k: nat)
    requires k < |bytes|
  {
    at + k in memory && memory[at + k] == bytes[k]
  }

  lemma WriteHolds(memory: map<nat, Byte>, at: nat, bytes: seq<Byte>, other: nat, kept: seq<Byte>)
    ensures Holds(WriteBytes(memory, at, bytes), at, bytes)
    ensures Holds(memory, other, kept) && Apart(at, |bytes|, other, |kept|) ==>
            Holds(WriteBytes(memory, at, bytes), other, kept)
  {
    hide WriteBytes;
    var written := WriteBytes(memory, at, bytes);
    forall k | 0 <= k < |bytes| ensures ByteAt(written, at, bytes, k) {}
    if Holds(memory, other, kept) && Apart(at, |bytes|, other, |kept|) {
      forall k | 0 <= k < |kept| ensures ByteAt(written, other, kept, k) {
        assert ByteAt(memory, other, kept, k);
      }
    }
  }

  // ---- Chunks ----

  ghost predicate ChunkOk(c: Chunk, chunkSize: nat) {
    c.size == chunkSize && 0 < c.start <= c.offset <= c.End() < ADDRESS_LIMIT
  }

  /** A valid row of chunks: same size, regions apart, and pristine past the current one. */
  ghost predicate ChunksOk(chunks: seq<Chunk>, current: nat, chunkSize: nat) {
    && current < |chunks|
    && (forall i :: 0 <= i < |chunks| ==> ChunkOk(chunks[i], chunkSize))
    && (forall i, j :: 0 <= i < j < |chunks| ==> Apart(chunks[i].start, chunkSize, chunks[j].start, chunkSize))
    && (forall i :: current < i < |chunks| ==> chunks[i].offset == chunks[i].start)
  }

  /** What the system allocator promises about memory for one more chunk. */
  ghost predicate FreshRegion(chunks: seq<Chunk>, chunkSize: nat, base: nat) {
    && 0 < base && base + chunkSize < ADDRESS_LIMIT
    && forall i :: 0 <= i < |chunks| ==> Apart(chunks[i].start, chunkSize, base, chunkSize)
  }

  // ---- Issued boxes ----

  /** The shared cell through which a clear invalidates the boxes issued before it. */
  class Flag {
    var valid: bool
    constructor ()
      ensures valid
    {
      valid := true;
    }
  }

  datatype ArenaBox = ArenaBox(ptr: nat, size: nat, flag: Flag)

  /** A box, the number of clears before it was issued, its alignment and its value. */
  datatype Issue = Issue(box: ArenaBox, epoch: nat, align: nat, bytes: seq<Byte>)

  /** A live object: aligned, below the bump pointer of some chunk, with its value in memory. */
  ghost predicate LiveOk(issue: Issue, chunks: seq<Chunk>, current: nat, memory: map<nat, Byte>) {
    && |issue.bytes| == issue.box.size
    && issue.align > 0 && issue.box.ptr % issue.align == 0
    && InSomeChunk(issue.box, chunks, current)
    && Holds(memory, issue.box.ptr, issue.bytes)
  }

  ghost predicate InSomeChunk(box: ArenaBox, chunks: seq<Chunk>, current: nat) {
    exists i :: 0 <= i < |chunks| && InChunk(box, chunks[i]) && i <= current
  }

  predicate InChunk(box: ArenaBox, c: Chunk) {
    c.start <= box.ptr && box.ptr + box.size <= c.offset
  }

  ghost predicate LiveApart(issued: seq<Issue>, first: nat) {
    forall i, j :: first <= i < j < |issued| ==>
      Apart(issued[i].box.ptr, issued[i].box.size, issued[j].box.ptr, issued[j].box.size)
  }

  function Ids(from: nat, to: nat): (r: seq<nat>)
    requires from <= to
    ensures |r| == to - from
    ensures forall k :: 0 <= k < |r| ==> r[k] == from + k
  {
    seq(to - from, k requires 0 <= k < to - from => from + k)
  }

  // ---- One allocation, on values ----

  /** The chunk of a new object keeps it apart from every live object. */
  lemma NewObjectApart(
    issued: seq<Issue>, first: nat, chunks: seq<Chunk>, current: nat, chunkSize: nat, memory: map<nat, Byte>, at: nat,
    size: nat, i: nat)
    requires ChunksOk(chunks, current, chunkSize) && first <= i < |issued|
    requires LiveOk(issued[i], chunks, current, memory)
    requires chunks[current].offset <= at && at + size <= chunks[current].End()
    ensures Apart(issued[i].box.ptr, issued[i].box.size, at, size)
  {
  }

  /** Live objects stay where they are when the bump pointer moves up or on. */
  lemma LiveKept(
    issue: Issue, chunks: seq<Chunk>, chunks': seq<Chunk>, current: nat, current': nat, memory: map<nat, Byte>,
    memory': map<nat, Byte>)
    requires LiveOk(issue, chunks, current, memory) && Holds(memory', issue.box.ptr, issue.bytes)
    requires current <= current' && |chunks| <= |chunks'|
    requires forall i :: 0 <= i < |chunks| ==>
             chunks'[i].start == chunks[i].start && chunks[i].offset <= chunks'[i].offset
    ensures LiveOk(issue, chunks', current', memory')
  {
  }

  class Arena {
    const chunkSize: nat
    var chunks: seq<Chunk>
    var elements: seq<nat>
    var valid: Flag
    var currentChunk: nat
    var scopeDepth: nat
    var memory: map<nat, Byte>
    /** The numbers of the elements whose destructors have run, in order. */
    var dropLog: seq<nat>

    ghost var issued: seq<Issue>
    ghost var firstLive: nat
    ghost var epoch: nat
    ghost var flags: seq<Flag>

    ghost predicate Valid()
      reads this, flags
    {
      && ChunksOk(chunks, currentChunk, chunkSize) && chunkSize > 0
      && FlagsOk()
      && firstLive <= |issued|
      && (forall i :: 0 <= i < |issued| ==> issued[i].epoch <= epoch && issued[i].box.flag == flags[issued[i].epoch])
      && (forall i :: 0 <= i < |issued| ==> (issued[i].epoch == epoch <==> i >= firstLive))
      && (forall i :: firstLive <= i < |issued| ==> LiveOk(issued[i], chunks, currentChunk, memory))
      && LiveApart(issued, firstLive)
      && elements == Ids(firstLive, |issued|)
      && dropLog == Ids(0, firstLive)
    }

    ghost predicate FlagsOk()
      reads this, flags
    {
      && |flags| == epoch + 1 && flags[epoch] == valid
      && (forall e :: 0 <= e < |flags| ==> (flags[e].valid <==> e == epoch))
    }

    constructor (chunkSize: nat, base: nat)
      requires chunkSize > 0 && FreshRegion([], chunkSize, base)
      ensures Valid() && fresh(flags) && issued == [] && scopeDepth == 0 && this.chunkSize == chunkSize
    {
      this.chunkSize := chunkSize;
      chunks := [Chunk(base, chunkSize, base)];
      elements, dropLog, currentChunk, scopeDepth, memory := [], [], 0, 0, map[];
      var flag := new Flag();
      valid := flag;
      issued, firstLive, epoch, flags := [], 0, 0, [flag];
    }

    /** Fails only when the depth counter itself would overflow. */
    method BeginScope() returns (ok: bool)
      requires Valid()
      modifies this`scopeDepth
      ensures Valid() && (ok <==> old(scopeDepth) < ADDRESS_LIMIT - 1)
      ensures scopeDepth == if ok then old(scopeDepth) + 1 else old(scopeDepth)
    {
      ok := scopeDepth < ADDRESS_LIMIT - 1;
      if ok { scopeDepth := scopeDepth + 1; }
    }

    method EndScope() returns (ok: bool)
      requires Valid()
      modifies this`scopeDepth
      ensures Valid() && (ok <==> old(scopeDepth) > 0)
      ensures scopeDepth == if ok then old(scopeDepth) - 1 else old(scopeDepth)
    {
      ok := scopeDepth > 0;
      if ok { scopeDepth := scopeDepth - 1; }
    }

    /** Clears unless a draw scope is open. */
    method Clear()
      requires Valid()
      modifies this, valid
      ensures Valid() && old(flags) <= flags && fresh(flags[|old(flags)|..])
      ensures issued == old(issued) && scopeDepth == old(scopeDepth)
      ensures old(scopeDepth) > 0 ==> epoch == old(epoch) && firstLive == old(firstLive)
      ensures old(scopeDepth) == 0 ==> epoch == old(epoch) + 1 && firstLive == |issued|
    {
      if scopeDepth == 0 {
        ForceClear();
      }
    }

    /** Invalidates every box, runs every pending destructor once, and resets all chunks; the
        chunks past the current one need no reset. */
    method ForceClear()
      requires Valid()
      modifies this, valid
      ensures Valid() && old(flags) <= flags && fresh(flags[|old(flags)|..])
      ensures issued == old(issued) && scopeDepth == old(scopeDepth)
      ensures epoch == old(epoch) + 1 && firstLive == |issued|
      ensures dropLog == old(dropLog) + old(elements) && elements == []
      ensures forall i :: 0 <= i < |chunks| ==> chunks[i].offset == chunks[i].start
    {
      hide LiveOk, ChunksOk;
      valid.valid := false;
      valid := new Flag();
      assert dropLog + elements == Ids(0, |issued|);
      dropLog := dropLog + elements;
      elements := [];
      epoch := epoch + 1;
      flags := flags + [valid];
      firstLive := |issued|;
      ResetChunks();
    }

    /** Resets the chunks up to the current one, which are all that were used. */
    method ResetChunks()
      requires ChunksOk(chunks, currentChunk, chunkSize)
      modifies this`chunks, this`currentChunk
      ensures ChunksOk(chunks, currentChunk, chunkSize) && currentChunk == 0
      ensures forall i :: 0 <= i < |chunks| ==> chunks[i].offset == chunks[i].start
    {
      hide Apart;
      var i := 0;
      while i <= currentChunk
        modifies this`chunks
        invariant 0 <= i <= currentChunk + 1 <= |chunks| == |old(chunks)|
        invariant forall k :: 0 <= k < |chunks| ==>
                  chunks[k] == if k < i then old(chunks)[k].(offset := old(chunks)[k].start) else old(chunks)[k]
      {
        chunks := chunks[i := chunks[i].(offset := chunks[i].start)];
        i := i + 1;
      }
      currentChunk := 0;
    }

    /** Places an object in the current chunk, or in the next one; `base` is where the system
        would put a new chunk if one is needed. */
    method Alloc(layout: Layout, bytes: seq<Byte>, base: nat) returns (r: Result<ArenaBox>)
      requires Valid() && layout.align > 0 && |bytes| == layout.size
      requires FreshRegion(chunks, chunkSize, base)
      modifies this
      ensures Valid() && flags == old(flags) && epoch == old(epoch) && firstLive == old(firstLive)
      ensures scopeDepth == old(scopeDepth)
      ensures r.Ok? ==> r.value.flag == valid && issued == old(issued) + [Issue(r.value, epoch, layout.align, bytes)]
      ensures r.Err? ==> issued == old(issued)
      ensures r.Ok? <==> Allocate(old(chunks)[old(currentChunk)], layout).Some? ||
                         Allocate(NextChunk(old(chunks), old(currentChunk), chunkSize, base), layout).Some?
      ensures r.Ok? <==> HasRoom(old(chunks)[old(currentChunk)], layout) ||
                         HasRoom(NextChunk(old(chunks), old(currentChunk), chunkSize, base), layout)
      ensures r.Ok? ==>
                FirstRoom(if HasRoom(old(chunks)[old(currentChunk)], layout) then old(chunks)[old(currentChunk)]
                          else NextChunk(old(chunks), old(currentChunk), chunkSize, base), layout, r.value.ptr)
      ensures layout.size + layout.align - 1 <= chunkSize ==> r.Ok?
    {
      ghost var next := NextChunk(chunks, currentChunk, chunkSize, base);
      assert ChunkOk(chunks[currentChunk], chunkSize) && ChunkOk(next, chunkSize);
      AllocateIsFirst(chunks[currentChunk], layout);
      AllocateIsFirst(next, layout);
      if layout.size + layout.align - 1 <= chunkSize {
        assert ChunkOk(chunks[currentChunk], chunkSize);
        PristineChunkFits(next, layout);
      }
      var at := Allocate(chunks[currentChunk], layout);
      if at == None {
        AdvanceChunk(base);
        at := Allocate(chunks[currentChunk], layout);
        if at == None {
          return Err;
        }
      }
      Place(layout, bytes, at.value);
      r := Ok(ArenaBox(at.value, layout.size, valid));
    }

    /** Moves on to the next chunk, adding one if there is none. */
    method AdvanceChunk(base: nat)
      requires Valid() && FreshRegion(chunks, chunkSize, base)
      modifies this`chunks, this`currentChunk
      ensures Valid() && currentChunk == old(currentChunk) + 1
      ensures chunks[currentChunk] == NextChunk(old(chunks), old(currentChunk), chunkSize, base)
    {
      ghost var chunks0 := chunks;
      currentChunk := currentChunk + 1;
      if currentChunk >= |chunks| {
        chunks := chunks + [Chunk(base, chunkSize, base)];
      }
      forall i | firstLive <= i < |issued| ensures LiveOk(issued[i], chunks, currentChunk, memory) {
        LiveKept(issued[i], chunks0, chunks, currentChunk - 1, currentChunk, memory, memory);
      }
    }

    /** Bumps the current chunk past the object and writes its value. */
    method Place(layout: Layout, bytes: seq<Byte>, at: nat)
      requires Valid() && layout.align > 0 && |bytes| == layout.size
      requires Allocate(chunks[currentChunk], layout) == Some(at)
      modifies this`chunks, this`memory, this`elements, this`issued
      ensures Valid()
      ensures issued == old(issued) + [Issue(ArenaBox(at, layout.size, valid), epoch, layout.align, bytes)]
    {
      hide LiveOk, LiveApart, WriteBytes;
      ghost var chunks0, memory0, issued0 := chunks, memory, issued;
      NextMultipleIsLeast(chunks[currentChunk].offset, layout.align, 0);
      chunks := chunks[currentChunk := chunks[currentChunk].(offset := at + layout.size)];
      memory := WriteBytes(memory, at, bytes);
      elements := elements + [|dropLog| + |elements|];
      issued := issued + [Issue(ArenaBox(at, layout.size, valid), epoch, layout.align, bytes)];
      PlacedKeepsLive(issued0, firstLive, chunks0, currentChunk, chunkSize, memory0, at, bytes, issued[|issued0|]);
    }

    /** Dereferencing: the value if the box was issued since the last effective clear, and a
        panic otherwise. */
    method Deref(box: ArenaBox, ghost n: nat) returns (r: Result<seq<Byte>>)
      requires Valid() && n < |issued| && issued[n].box == box
      ensures r.Ok? <==> issued[n].epoch == epoch
      ensures r.Ok? ==> r.value == issued[n].bytes
    {
      if !box.flag.valid {
        return Err;
      }
      assert LiveOk(issued[n], chunks, currentChunk, memory);
      var bytes := [];
      for k := 0 to box.size
        invariant bytes == issued[n].bytes[..k]
      {
        assert ByteAt(memory, box.ptr, issued[n].bytes, k);
        bytes := bytes + [memory[box.ptr + k]];
      }
      r := Ok(bytes);
    }
  }

  function NextChunk(chunks: seq<Chunk>, current: nat, chunkSize: nat, base: nat): Chunk {
    if current + 1 < |chunks| then chunks[current + 1] else Chunk(base, chunkSize, base)
  }

  lemma PlacedKeepsLive(
    issued: seq<Issue>, first: nat, chunks: seq<Chunk>, current: nat, chunkSize: nat, memory: map<nat, Byte>, at: nat,
    bytes: seq<Byte>, added: Issue)
    requires ChunksOk(chunks, current, chunkSize) && LiveApart(issued, first) && first <= |issued|
    requires forall i :: first <= i < |issued| ==> LiveOk(issued[i], chunks, current, memory)
    requires chunks[current].offset <= at && at + |bytes| <= chunks[current].End()
    requires added.box.ptr == at && added.box.size == |bytes| && added.bytes == bytes && added.align > 0
    requires at % added.align == 0
    ensures var chunks' := chunks[current := chunks[current].(offset := at + |bytes|)];
            var issued' := issued + [added];
            && ChunksOk(chunks', current, chunkSize)
            && LiveApart(issued', first)
            && forall i :: first <= i < |issued'| ==>
               LiveOk(issued'[i], chunks', current, WriteBytes(memory, at, bytes))
  {
    var chunks' := chunks[current := chunks[current].(offset := at + |bytes|)];
    var memory' := WriteBytes(memory, at, bytes);
    var issued' := issued + [added];
    assert ChunkOk(chunks[current], chunkSize);
    forall i | first <= i < |issued'| ensures LiveOk(issued'[i], chunks', current, memory') {
      if i < |issued| {
        NewObjectApart(issued, first, chunks, current, chunkSize, memory, at, |bytes|, i);
        WriteHolds(memory, at, bytes, issued[i].box.ptr, issued[i].bytes);
        LiveKept(issued[i], chunks, chunks', current, current, memory, memory');
      } else {
        WriteHolds(memory, at, bytes, 0, []);
        assert InChunk(added.box, chunks'[current]);
      }
    }
    forall i, j | first <= i < j < |issued'|
      ensures Apart(issued'[i].box.ptr, issued'[i].box.size, issued'[j].box.ptr, issued'[j].box.size)
    {
      if j == |issued| {
        NewObjectApart(issued, first, chunks, current, chunkSize, memory, at, |bytes|, i);
      }
    }
  }
}
