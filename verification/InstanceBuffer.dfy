/** The renderer's instance buffer: one pass predicts the bytes a frame needs, a second pass
    writes through a moving, aligned cursor. */
module InstanceBuffer {
  import opened Basics
  import opened Geometry
  import opened Alignment

  const MIN_BINDING: nat := 16

  const U64_LIMIT: nat := 0x1_0000_0000_0000_0000

  // ---- The layout, by lengths only ----

  /** Where the cursor stands after one more binding of `len` data bytes. */
  function Reserve(offset: nat, alignment: nat, len: nat): nat {
    NextMultiple(offset, Max(alignment, 1)) + Max(len, MIN_BINDING)
  }

  /** Where the cursor stands after bindings of the given data lengths. */
  function End(alignment: nat, lens: seq<nat>): nat {
    if lens == [] then 0 else Reserve(End(alignment, lens[..|lens| - 1]), alignment, lens[|lens| - 1])
  }

  lemma ReserveMonotone(a: nat, b: nat, alignment: nat, len: nat)
    requires a <= b
    ensures Reserve(a, alignment, len) <= Reserve(b, alignment, len)
    ensures a <= Reserve(a, alignment, len)
  {
    NextMultipleMonotone(a, b, Max(alignment, 1));
    NextMultipleIsLeast(a, Max(alignment, 1), 0);
  }

  // ---- Scenes ----

  /** A path batch member: its z-order, clipped bounds and rasterization vertices as bytes. */
  datatype Path = Path(order: nat, bounds: Bounds, vertexBytes: seq<Byte>)

  datatype Batch = Paths(paths: seq<Path>) | OtherBatch

  datatype Scene = Scene(
    quads: seq<Byte>, shadows: seq<Byte>, underlines: seq<Byte>,
    monochromeSprites: seq<Byte>, polychromeSprites: seq<Byte>,
    batches: seq<Batch>
  )

  /** How a path sprite is laid out in memory: always the same number of bytes. */
  datatype Codec = Codec(spriteSize: nat, encode: Bounds -> seq<Byte>)

  ghost predicate CodecOk(codec: Codec) {
    forall b: Bounds :: |codec.encode(b)| == codec.spriteSize
  }

  function VertexBytes(paths: seq<Path>): seq<Byte> {
    if paths == [] then [] else VertexBytes(paths[..|paths| - 1]) + paths[|paths| - 1].vertexBytes
  }

  function VertexLen(paths: seq<Path>): (n: nat)
    ensures n == |VertexBytes(paths)|
  {
    if paths == [] then 0 else VertexLen(paths[..|paths| - 1]) + |paths[|paths| - 1].vertexBytes|
  }

  function PathSpriteCount(paths: seq<Path>): nat {
    if paths == [] then 0
    else if paths[|paths| - 1].order == paths[0].order then |paths|
    else 1
  }

  /** The union of the clipped bounds of a non-empty batch. */
  function UnionBounds(paths: seq<Path>): Bounds
    requires paths != []
  {
    if |paths| == 1 then paths[0].bounds
    else UnionBounds(paths[..|paths| - 1]).Union(paths[|paths| - 1].bounds)
  }

  function PathSprites(paths: seq<Path>): seq<Bounds> {
    if paths == [] then []
    else if paths[|paths| - 1].order == paths[0].order then seq(|paths|, i requires 0 <= i < |paths| => paths[i].bounds)
    else [UnionBounds(paths)]
  }

  /** If the batch has one order, each path's own bounds; otherwise one rectangle that covers all
      paths and lies in every rectangle that does. */
  ghost predicate SpritesOf(paths: seq<Path>, sprites: seq<Bounds>)
    requires paths != []
  {
    if paths[0].order == paths[|paths| - 1].order then
      |sprites| == |paths| && forall i :: 0 <= i < |paths| ==> sprites[i] == paths[i].bounds
    else
      && |sprites| == 1 && CoversPaths(sprites[0], paths)
      && forall box: Bounds :: CoversPaths(box, paths) ==> box.Covers(sprites[0])
  }

  ghost predicate CoversPaths(box: Bounds, paths: seq<Path>) {
    forall i :: 0 <= i < |paths| ==> box.Covers(paths[i].bounds)
  }

  lemma SpritesAreRight(paths: seq<Path>)
    requires paths != []
    ensures SpritesOf(paths, PathSprites(paths))
  {
    if paths[0].order != paths[|paths| - 1].order {
      UnionBoundsLeast(paths, paths[0].bounds);
      forall box: Bounds | CoversPaths(box, paths) ensures box.Covers(UnionBounds(paths)) {
        UnionBoundsLeast(paths, box);
      }
    }
  }

  /** One sprite per path, or one sprite that covers the whole batch and nothing more. */
  method BuildPathSprites(paths: seq<Path>) returns (sprites: seq<Bounds>)
    requires paths != []
    ensures sprites == PathSprites(paths)
    ensures |sprites| == PathSpriteCount(paths)
    ensures SpritesOf(paths, sprites)
  {
    SpritesAreRight(paths);
    if paths[|paths| - 1].order == paths[0].order {
      return seq(|paths|, i requires 0 <= i < |paths| => paths[i].bounds);
    }
    var bounds := paths[0].bounds;
    for i := 1 to |paths|
      invariant bounds == UnionBounds(paths[..i])
    {
      assert paths[..i + 1][..i] == paths[..i];
      bounds := bounds.Union(paths[i].bounds);
    }
    assert paths[..|paths|] == paths;
    sprites := [bounds];
  }

  /** The single sprite of a mixed batch is the least rectangle covering every path. */
  lemma {:induction false} UnionBoundsLeast(paths: seq<Path>, box: Bounds)
    requires paths != []
    ensures forall i :: 0 <= i < |paths| ==> UnionBounds(paths).Covers(paths[i].bounds)
    ensures (forall i :: 0 <= i < |paths| ==> box.Covers(paths[i].bounds)) ==> box.Covers(UnionBounds(paths))
  {
    if |paths| > 1 {
      var rest, last := paths[..|paths| - 1], paths[|paths| - 1];
      UnionBoundsLeast(rest, box);
      UnionIsLeastCover(UnionBounds(rest), last.bounds, box);
      forall i | 0 <= i < |paths| ensures UnionBounds(paths).Covers(paths[i].bounds) {
        if i < |rest| {
          assert paths[i] == rest[i];
          UnionIsLeastCover(UnionBounds(rest), last.bounds, box);
        }
      }
      if forall i :: 0 <= i < |paths| ==> box.Covers(paths[i].bounds) {
        assert forall i :: 0 <= i < |rest| ==> rest[i] == paths[i];
      }
    }
  }

  function EncodeAll(codec: Codec, sprites: seq<Bounds>): seq<Byte> {
    if sprites == [] then [] else EncodeAll(codec, sprites[..|sprites| - 1]) + codec.encode(sprites[|sprites| - 1])
  }

  lemma {:induction false} EncodeAllLen(codec: Codec, sprites: seq<Bounds>)
    requires CodecOk(codec)
    ensures |EncodeAll(codec, sprites)| == |sprites| * codec.spriteSize
  {
    if sprites != [] {
      EncodeAllLen(codec, sprites[..|sprites| - 1]);
      assert |sprites| * codec.spriteSize == (|sprites| - 1) * codec.spriteSize + codec.spriteSize;
    }
  }

  // ---- What is predicted, and what is written ----

  function ArrayLens(scene: Scene): seq<nat> {
    [|scene.quads|, |scene.shadows|, |scene.underlines|, |scene.monochromeSprites|, |scene.polychromeSprites|]
  }

  function SpriteLen(codec: Codec, paths: seq<Path>): nat {
    PathSpriteCount(paths) * codec.spriteSize
  }

  /** The bindings of one batch; without an intermediate view the sprites are never written. */
  function BatchLens(codec: Codec, batch: Batch, hasView: bool): seq<nat> {
    if batch.OtherBatch? || VertexLen(batch.paths) == 0 then []
    else if hasView then [VertexLen(batch.paths), SpriteLen(codec, batch.paths)]
    else [VertexLen(batch.paths)]
  }

  function FrameLens(codec: Codec, scene: Scene, batches: seq<Batch>, hasView: bool): seq<nat> {
    if batches == [] then ArrayLens(scene)
    else FrameLens(codec, scene, batches[..|batches| - 1], hasView) + BatchLens(codec, batches[|batches| - 1], hasView)
  }

  function ArrayData(scene: Scene): seq<seq<Byte>> {
    [scene.quads, scene.shadows, scene.underlines, scene.monochromeSprites, scene.polychromeSprites]
  }

  function BatchData(codec: Codec, batch: Batch, hasView: bool): seq<seq<Byte>> {
    if batch.OtherBatch? || VertexBytes(batch.paths) == [] then []
    else if hasView then [VertexBytes(batch.paths), EncodeAll(codec, PathSprites(batch.paths))]
    else [VertexBytes(batch.paths)]
  }

  /** What a frame has to upload, binding by binding. */
  function FrameData(codec: Codec, scene: Scene, batches: seq<Batch>, hasView: bool): seq<seq<Byte>> {
    if batches == [] then ArrayData(scene)
    else FrameData(codec, scene, batches[..|batches| - 1], hasView) + BatchData(codec, batches[|batches| - 1], hasView)
  }

  // ---- What is uploaded, byte by byte ----

  /** The data is the parts one after the other, cut at the given offsets. */
  ghost predicate JoinedAt(data: seq<Byte>, parts: seq<seq<Byte>>, offsets: seq<nat>) {
    && |offsets| == |parts| + 1 && offsets[0] == 0 && offsets[|parts|] == |data|
    && forall j: nat :: j < |parts| ==> PartAt(data, parts, offsets, j)
  }

  ghost predicate PartAt(data: seq<Byte>, parts: seq<seq<Byte>>, offsets: seq<nat>, j: nat)
    requires j < |parts| && |offsets| == |parts| + 1
  {
    offsets[j] + |parts[j]| == offsets[j + 1] <= |data| && data[offsets[j]..offsets[j + 1]] == parts[j]
  }

  ghost predicate Joined(data: seq<Byte>, parts: seq<seq<Byte>>) {
    exists offsets: seq<nat> :: JoinedAt(data, parts, offsets)
  }

  lemma JoinedSnoc(data: seq<Byte>, parts: seq<seq<Byte>>, last: seq<Byte>)
    requires Joined(data, parts)
    ensures Joined(data + last, parts + [last])
  {
    var offsets: seq<nat> :| JoinedAt(data, parts, offsets);
    var data', parts' := data + last, parts + [last];
    var offsets': seq<nat> := offsets + [|data'|];
    assert |offsets'| == |parts'| + 1 && offsets'[|parts'|] == |data'|;
    forall j: nat | j < |parts'| ensures PartAt(data', parts', offsets', j) {
      if j < |parts| {
        assert PartAt(data, parts, offsets, j);
        assert data'[offsets[j]..offsets[j + 1]] == data[offsets[j]..offsets[j + 1]];
      }
    }
    assert JoinedAt(data', parts', offsets');
  }

  lemma NothingJoined()
    ensures Joined([], [])
  {
    assert JoinedAt([], [], [0]);
  }

  /** A batch writes something exactly if one of its paths has vertices. */
  ghost predicate Draws(batch: Batch) {
    batch.Paths? && exists j :: 0 <= j < |batch.paths| && batch.paths[j].vertexBytes != []
  }

  function Vertices(paths: seq<Path>): seq<seq<Byte>> {
    seq(|paths|, j requires 0 <= j < |paths| => paths[j].vertexBytes)
  }

  function Encodings(codec: Codec, sprites: seq<Bounds>): seq<seq<Byte>> {
    seq(|sprites|, j requires 0 <= j < |sprites| => codec.encode(sprites[j]))
  }

  /** The number of bindings before those of the batch at `i`: five arrays, and for every batch
      that draws its vertices and, with an intermediate view, its sprites. */
  ghost function Position(batches: seq<Batch>, i: nat, hasView: bool): nat
    requires i <= |batches|
  {
    if i == 0 then 5
    else Position(batches, i - 1, hasView) + if !Draws(batches[i - 1]) then 0 else if hasView then 2 else 1
  }

  ghost predicate SpriteData(codec: Codec, paths: seq<Path>, data: seq<Byte>)
    requires paths != []
  {
    exists sprites {:trigger SpritesOf(paths, sprites)} ::
      SpritesOf(paths, sprites) && Joined(data, Encodings(codec, sprites))
  }

  ghost predicate BatchUploaded(
    codec: Codec, batches: seq<Batch>, i: nat, hasView: bool, data: seq<seq<Byte>>)
    requires i < |batches| && Draws(batches[i])
  {
    var n, paths := Position(batches, i, hasView), batches[i].paths;
    && n < |data| && Joined(data[n], Vertices(paths))
    && (hasView ==> n + 1 < |data| && SpriteData(codec, paths, data[n + 1]))
  }

  /** The bindings of a frame: the five primitive arrays, then for each batch that draws all its
      vertices, path after path, and the encodings of its sprites. */
  ghost predicate Uploaded(codec: Codec, scene: Scene, hasView: bool, data: seq<seq<Byte>>) {
    && |data| == Position(scene.batches, |scene.batches|, hasView) && |data| >= 5
    && data[0] == scene.quads && data[1] == scene.shadows && data[2] == scene.underlines
    && data[3] == scene.monochromeSprites && data[4] == scene.polychromeSprites
    && forall i :: 0 <= i < |scene.batches| && Draws(scene.batches[i]) ==>
         BatchUploaded(codec, scene.batches, i, hasView, data)
  }

  lemma {:induction false} VerticesJoined(paths: seq<Path>)
    ensures Joined(VertexBytes(paths), Vertices(paths))
    ensures VertexBytes(paths) != [] <==> exists j :: 0 <= j < |paths| && paths[j].vertexBytes != []
  {
    if paths == [] {
      NothingJoined();
      assert Vertices(paths) == [];
    } else {
      var init, last := paths[..|paths| - 1], paths[|paths| - 1];
      VerticesJoined(init);
      JoinedSnoc(VertexBytes(init), Vertices(init), last.vertexBytes);
      assert Vertices(paths) == Vertices(init) + [last.vertexBytes];
      hide Joined;
      if j :| 0 <= j < |paths| && paths[j].vertexBytes != [] {
        assert j < |init| ==> init[j].vertexBytes != [];
      }
      if VertexBytes(init) != [] {
        var j :| 0 <= j < |init| && init[j].vertexBytes != [];
        assert paths[j].vertexBytes != [];
      }
    }
  }

  lemma {:induction false} EncodingsJoined(codec: Codec, sprites: seq<Bounds>)
    ensures Joined(EncodeAll(codec, sprites), Encodings(codec, sprites))
  {
    if sprites == [] {
      NothingJoined();
      assert Encodings(codec, sprites) == [];
    } else {
      var init, last := sprites[..|sprites| - 1], sprites[|sprites| - 1];
      EncodingsJoined(codec, init);
      JoinedSnoc(EncodeAll(codec, init), Encodings(codec, init), codec.encode(last));
      assert Encodings(codec, sprites) == Encodings(codec, init) + [codec.encode(last)];
    }
  }

  /** What one batch adds to the frame. */
  lemma BatchUploads(codec: Codec, batch: Batch, hasView: bool)
    ensures !Draws(batch) ==> BatchData(codec, batch, hasView) == []
    ensures Draws(batch) ==>
              var data := BatchData(codec, batch, hasView);
              && |data| == (if hasView then 2 else 1) && Joined(data[0], Vertices(batch.paths))
              && (hasView ==> SpriteData(codec, batch.paths, data[1]))
  {
    hide Joined, SpritesOf, EncodeAll, PathSprites, VertexBytes;
    if batch.Paths? {
      VerticesJoined(batch.paths);
      if Draws(batch) {
        SpritesAreRight(batch.paths);
        EncodingsJoined(codec, PathSprites(batch.paths));
      }
    }
  }

  lemma {:induction false} FrameUploadsUpTo(codec: Codec, scene: Scene, m: nat, hasView: bool)
    requires m <= |scene.batches|
    ensures var data := FrameData(codec, scene, scene.batches[..m], hasView);
            && |data| == Position(scene.batches, m, hasView) && |data| >= 5 && data[..5] == ArrayData(scene)
            && forall i :: 0 <= i < m && Draws(scene.batches[i]) ==>
                 BatchUploaded(codec, scene.batches, i, hasView, data)
  {
    hide Joined, SpriteData, Draws, BatchData;
    var data := FrameData(codec, scene, scene.batches[..m], hasView);
    if m == 0 {
      assert scene.batches[..0] == [];
    } else {
      FrameUploadsUpTo(codec, scene, m - 1, hasView);
      DataSnoc(codec, scene, m - 1, hasView);
      var before := FrameData(codec, scene, scene.batches[..m - 1], hasView);
      var more := BatchData(codec, scene.batches[m - 1], hasView);
      assert data == before + more && data[..5] == before[..5];
      BatchUploads(codec, scene.batches[m - 1], hasView);
      forall i | 0 <= i < m && Draws(scene.batches[i])
        ensures BatchUploaded(codec, scene.batches, i, hasView, data)
      {
        if i < m - 1 {
          assert BatchUploaded(codec, scene.batches, i, hasView, before);
        } else {
          var n := Position(scene.batches, i, hasView);
          assert data[n] == more[0] && (hasView ==> data[n + 1] == more[1]);
        }
      }
    }
  }

  lemma FrameUploads(codec: Codec, scene: Scene, hasView: bool)
    ensures Uploaded(codec, scene, hasView, FrameData(codec, scene, scene.batches, hasView))
  {
    hide BatchUploaded, FrameData, Position;
    var data := FrameData(codec, scene, scene.batches, hasView);
    FrameUploadsUpTo(codec, scene, |scene.batches|, hasView);
    assert scene.batches[..|scene.batches|] == scene.batches;
    assert forall i :: 0 <= i < 5 ==> data[i] == data[..5][i];
  }

  lemma {:induction false} EndAppend(alignment: nat, a: seq<nat>, b: seq<nat>)
    ensures End(alignment, a) <= End(alignment, a + b)
    decreases |b|
  {
    if b == [] {
      assert a + b == a;
    } else {
      var init := b[..|b| - 1];
      assert a + b == (a + init) + [b[|b| - 1]];
      assert ((a + init) + [b[|b| - 1]])[..|a + init|] == a + init;
      EndAppend(alignment, a, init);
      ReserveMonotone(End(alignment, a + init), End(alignment, a + init), alignment, b[|b| - 1]);
    }
  }

  lemma EndSnoc(alignment: nat, a: seq<nat>, len: nat)
    ensures End(alignment, a + [len]) == Reserve(End(alignment, a), alignment, len)
  {
    assert (a + [len])[..|a|] == a;
  }

  lemma EndTwo(alignment: nat, a: seq<nat>, x: nat, y: nat)
    ensures End(alignment, a + [x, y]) == Reserve(Reserve(End(alignment, a), alignment, x), alignment, y)
  {
    assert a + [x, y] == (a + [x]) + [y];
    EndSnoc(alignment, a, x);
    EndSnoc(alignment, a + [x], y);
  }

  /** A frame without an intermediate view ends no later than the prediction. */
  lemma {:induction false} MissingViewEndsEarlier(
    codec: Codec, alignment: nat, scene: Scene, batches: seq<Batch>, hasView: bool)
    ensures End(alignment, FrameLens(codec, scene, batches, hasView)) <=
            End(alignment, FrameLens(codec, scene, batches, true))
  {
    hide Reserve, SpriteLen, VertexLen;
    if batches != [] {
      var init, last := batches[..|batches| - 1], batches[|batches| - 1];
      MissingViewEndsEarlier(codec, alignment, scene, init, hasView);
      var a, b := FrameLens(codec, scene, init, hasView), FrameLens(codec, scene, init, true);
      if BatchLens(codec, last, true) == [] {
        assert a + [] == a && b + [] == b;
      } else {
        var x, y := VertexLen(last.paths), SpriteLen(codec, last.paths);
        EndTwo(alignment, a, x, y);
        EndTwo(alignment, b, x, y);
        EndSnoc(alignment, a, x);
        ReserveMonotone(End(alignment, a), End(alignment, b), alignment, x);
        ReserveMonotone(Reserve(End(alignment, a), alignment, x), Reserve(End(alignment, b), alignment, x), alignment,
          y);
      }
    }
  }

  // ---- Buffer growth ----

  function NextPowerOfTwo(n: nat): (p: nat)
    ensures n <= p && 1 <= p
    ensures n > 0 ==> p < 2 * n
  {
    if n <= 1 then 1 else 2 * NextPowerOfTwo((n + 1) / 2)
  }

  /** As a 64-bit operation: past 2^63 there is no such power, and an optimized build yields 0. */
  function NextPowerOfTwo64(n: nat): nat {
    if n <= U64_LIMIT / 2 then NextPowerOfTwo(n) else 0
  }

  function NextCapacity(current: nat, required: nat, max: nat): Option<nat> {
    if required > max then None
    else if current >= required then Some(current)
    else
      var grown := Min(Max(Min(current * 2, U64_LIMIT - 1), NextPowerOfTwo64(required)), max);
      if grown >= required then Some(grown) else None
  }

  /** Growth fails only past the maximum, as long as less than 2^63 bytes are asked for;
      what it grants is enough and, when it grew, within the maximum. */
  lemma NextCapacityExact(current: nat, required: nat, max: nat)
    ensures required <= U64_LIMIT / 2 ==> (NextCapacity(current, required, max) == None <==> required > max)
    ensures NextCapacity(current, required, max).Some? ==>
              var c := NextCapacity(current, required, max).value;
              required <= c && (current < required ==> c <= max)
  {
  }

  // ---- The renderer ----

  datatype Binding = Binding(offset: nat, size: nat, data: seq<Byte>)

  /** Bindings as one frame may hand them to the GPU: aligned, at least 16 bytes, big enough,
      one after the other and inside the buffer, each still holding its own data. */
  ghost predicate BindingsOk(bindings: seq<Binding>, alignment: nat, buffer: seq<Byte>, cursor: nat) {
    && cursor <= |buffer|
    && (forall i :: 0 <= i < |bindings| ==> BindingOk(bindings[i], alignment, buffer, cursor))
    && (forall i, j :: 0 <= i < j < |bindings| ==> bindings[i].offset + bindings[i].size <= bindings[j].offset)
  }

  ghost predicate BindingOk(b: Binding, alignment: nat, buffer: seq<Byte>, cursor: nat) {
    && b.offset % Max(alignment, 1) == 0
    && b.size == Max(|b.data|, MIN_BINDING) && b.size >= 16 && b.size >= |b.data|
    && b.offset + b.size <= cursor <= |buffer|
    && buffer[b.offset..b.offset + |b.data|] == b.data
  }

  function Payloads(bindings: seq<Binding>): seq<seq<Byte>> {
    seq(|bindings|, i requires 0 <= i < |bindings| => bindings[i].data)
  }

  lemma PayloadsAre(bindings: seq<Binding>)
    ensures |Payloads(bindings)| == |bindings|
    ensures forall i :: 0 <= i < |bindings| ==> Payloads(bindings)[i] == bindings[i].data
  {
  }

  function Lens(bindings: seq<Binding>): seq<nat> {
    seq(|bindings|, i requires 0 <= i < |bindings| => |bindings[i].data|)
  }

  function Overwrite(buffer: seq<Byte>, offset: nat, data: seq<Byte>): (r: seq<Byte>)
    requires offset + |data| <= |buffer|
    ensures |r| == |buffer| && r[..offset] == buffer[..offset] && r[offset..offset + |data|] == data
  {
    buffer[..offset] + data + buffer[offset + |data|..]
  }

  lemma BindingsGrow(bindings: seq<Binding>, alignment: nat, buffer: seq<Byte>, cursor: nat, data: seq<Byte>)
    requires BindingsOk(bindings, alignment, buffer, cursor)
    requires Reserve(cursor, alignment, |data|) <= |buffer|
    ensures var offset := NextMultiple(cursor, Max(alignment, 1));
            var b := Binding(offset, Max(|data|, MIN_BINDING), data);
            && offset + |data| <= |buffer|
            && BindingsOk(bindings + [b], alignment, Overwrite(buffer, offset, data),
               Reserve(cursor, alignment, |data|))
  {
    var offset := NextMultiple(cursor, Max(alignment, 1));
    NextMultipleIsLeast(cursor, Max(alignment, 1), 0);
    var buffer' := Overwrite(buffer, offset, data);
    forall i | 0 <= i < |bindings|
      ensures BindingOk(bindings[i], alignment, buffer', Reserve(cursor, alignment, |data|))
    {
      var b := bindings[i];
      assert BindingOk(b, alignment, buffer, cursor);
      assert buffer'[b.offset..b.offset + |b.data|] == buffer'[..offset][b.offset..b.offset + |b.data|];
    }
  }

  class InstanceRenderer {
    const alignment: nat
    const maxBufferSize: nat
    const codec: Codec
    var buffer: seq<Byte>
    var capacity: nat

    ghost predicate Valid()
      reads this
    {
      |buffer| == capacity && CodecOk(codec)
    }

    constructor (alignment: nat, maxBufferSize: nat, codec: Codec, capacity: nat)
      requires CodecOk(codec)
      ensures Valid() && this.capacity == capacity && this.alignment == alignment
      ensures this.maxBufferSize == maxBufferSize && this.codec == codec
    {
      this.alignment, this.maxBufferSize, this.codec := alignment, maxBufferSize, codec;
      this.buffer, this.capacity := seq(capacity, _ => 0), capacity;
    }

    /** The first pass: bytes needed, without writing anything. */
    method FrameInstanceBytes(scene: Scene) returns (offset: nat)
      ensures offset == End(alignment, FrameLens(codec, scene, scene.batches, true))
    {
      hide Reserve, End, SpriteLen, VertexLen;
      offset := 0;
      offset := Reserve(offset, alignment, |scene.quads|);
      offset := Reserve(offset, alignment, |scene.shadows|);
      offset := Reserve(offset, alignment, |scene.underlines|);
      offset := Reserve(offset, alignment, |scene.monochromeSprites|);
      offset := Reserve(offset, alignment, |scene.polychromeSprites|);
      FiveEnds(alignment, |scene.quads|, |scene.shadows|, |scene.underlines|, |scene.monochromeSprites|,
        |scene.polychromeSprites|);
      for i := 0 to |scene.batches|
        invariant offset == End(alignment, FrameLens(codec, scene, scene.batches[..i], true))
      {
        assert scene.batches[..i + 1][..i] == scene.batches[..i];
        ghost var lens := FrameLens(codec, scene, scene.batches[..i], true);
        var batch := scene.batches[i];
        if batch.Paths? && VertexLen(batch.paths) != 0 {
          offset := Reserve(offset, alignment, VertexLen(batch.paths));
          offset := Reserve(offset, alignment, SpriteLen(codec, batch.paths));
          EndTwo(alignment, lens, VertexLen(batch.paths), SpriteLen(codec, batch.paths));
        } else {
          assert lens + [] == lens;
        }
      }
      assert scene.batches[..|scene.batches|] == scene.batches;
    }

    method EnsureInstanceCapacity(required: nat) returns (ok: bool)
      requires Valid()
      modifies this
      ensures Valid()
      ensures ok <==> required <= old(capacity) || NextCapacity(old(capacity), required, maxBufferSize).Some?
      ensures ok ==> required <= capacity
      ensures ok && required > old(capacity) ==> Some(capacity) == NextCapacity(old(capacity), required, maxBufferSize)
      ensures required <= old(capacity) || !ok ==> capacity == old(capacity) && buffer == old(buffer)
    {
      if required <= capacity {
        return true;
      }
      var grown := NextCapacity(capacity, required, maxBufferSize);
      if grown == None {
        return false;
      }
      capacity := grown.value;
      buffer := seq(capacity, _ => 0);
      return true;
    }

    /** Shrinks the buffer back to the initial size between frames. */
    method Trim(initial: nat)
      requires Valid()
      modifies this
      ensures Valid() && capacity == Min(old(capacity), initial)
    {
      if capacity > initial {
        capacity := initial;
        buffer := seq(capacity, _ => 0);
      }
    }

    /** One write through the cursor; refused when it would pass the end of the buffer. */
    method WriteInstanceBinding(cursor: nat, data: seq<Byte>, ghost bindings: seq<Binding>)
      returns (r: Result<Binding>, next: nat)
      requires Valid() && BindingsOk(bindings, alignment, buffer, cursor)
      modifies this`buffer
      ensures Valid()
      ensures r.Ok? <==> Reserve(cursor, alignment, |data|) <= capacity
      ensures r.Ok? ==>
                && next == Reserve(cursor, alignment, |data|) && r.value.data == data
                && BindingsOk(bindings + [r.value], alignment, buffer, next)
      ensures r.Err? ==> next == cursor && buffer == old(buffer)
    {
      var size := Max(|data|, MIN_BINDING);
      var offset := NextMultiple(cursor, Max(alignment, 1));
      if offset + size > capacity {
        return Err, cursor;
      }
      BindingsGrow(bindings, alignment, buffer, cursor, data);
      next := offset + size;
      if data != [] {
        buffer := Overwrite(buffer, offset, data);
      } else {
        assert Overwrite(buffer, offset, data) == buffer;
      }
      r := Ok(Binding(offset, size, data));
    }

    /** A whole frame.  It fails exactly when the capacity it asked for is refused; once the
        capacity is there, no write fails, and every binding is sound at the end. */
    method RecordFrame(scene: Scene, hasView: bool) returns (r: Result<seq<Binding>>)
      requires Valid()
      modifies this
      ensures Valid()
      ensures var required := End(alignment, FrameLens(codec, scene, scene.batches, true));
              r.Ok? <==> required <= old(capacity) || NextCapacity(old(capacity), required, maxBufferSize).Some?
      ensures r.Ok? ==>
                && Lens(r.value) == FrameLens(codec, scene, scene.batches, hasView)
                && BindingsOk(r.value, alignment, buffer, End(alignment, Lens(r.value)))
      ensures r.Ok? ==> Payloads(r.value) == FrameData(codec, scene, scene.batches, hasView)
      ensures r.Ok? ==> Uploaded(codec, scene, hasView, Payloads(r.value))
      ensures r.Ok? ==>
                && |Payloads(r.value)| == |r.value|
                && forall i :: 0 <= i < |r.value| ==> Payloads(r.value)[i] == r.value[i].data
    {
      hide BindingsOk, Reserve, End, NextCapacity, FrameLens, FrameData, Lens, Payloads, Uploaded;
      var required := FrameInstanceBytes(scene);
      var ok := EnsureInstanceCapacity(required);
      if !ok {
        return Err;
      }
      PrefixEnds(codec, alignment, scene, 0);
      ArraysFirst(codec, scene, true);
      assert scene.batches[..0] == [];
      var bindings, cursor := WriteInstances(scene);
      bindings := RecordBatches(scene, hasView, bindings, cursor);
      FrameUploads(codec, scene, hasView);
      PayloadsAre(bindings);
      r := Ok(bindings);
    }

    /** The batches of a frame, behind the primitive arrays. */
    method RecordBatches(scene: Scene, hasView: bool, before: seq<Binding>, start: nat) returns (bindings: seq<Binding>)
      requires Valid() && BindingsOk(before, alignment, buffer, start) && start == End(alignment, Lens(before))
      requires Lens(before) == ArrayLens(scene) && Payloads(before) == ArrayData(scene)
      requires End(alignment, FrameLens(codec, scene, scene.batches, true)) <= capacity
      modifies this`buffer
      ensures Valid()
      ensures Payloads(bindings) == FrameData(codec, scene, scene.batches, hasView)
      ensures Lens(bindings) == FrameLens(codec, scene, scene.batches, hasView)
      ensures BindingsOk(bindings, alignment, buffer, End(alignment, Lens(bindings)))
    {
      hide BindingsOk, End, BatchLens, BatchData, FrameLens, FrameData, Lens, Payloads;
      ArraysFirst(codec, scene, hasView);
      var cursor := start;
      bindings := before;
      for i := 0 to |scene.batches|
        invariant Valid()
        invariant Payloads(bindings) == FrameData(codec, scene, scene.batches[..i], hasView)
        invariant Lens(bindings) == FrameLens(codec, scene, scene.batches[..i], hasView)
        invariant cursor == End(alignment, Lens(bindings)) && BindingsOk(bindings, alignment, buffer, cursor)
      {
        FitsAfter(codec, alignment, scene, i, hasView);
        DataSnoc(codec, scene, i, hasView);
        bindings, cursor := DrawBatch(scene.batches[i], hasView, bindings, cursor);
      }
      assert scene.batches[..|scene.batches|] == scene.batches;
    }

    /** What one batch of the scene writes: only paths write anything. */
    method DrawBatch(
      batch: Batch, hasView: bool, before: seq<Binding>, start: nat) returns (bindings: seq<Binding>, cursor: nat)
      requires Valid() && BindingsOk(before, alignment, buffer, start) && start == End(alignment, Lens(before))
      requires End(alignment, Lens(before) + BatchLens(codec, batch, hasView)) <= capacity
      modifies this`buffer
      ensures Valid()
      ensures Payloads(bindings) == Payloads(before) + BatchData(codec, batch, hasView)
      ensures Lens(bindings) == Lens(before) + BatchLens(codec, batch, hasView)
      ensures cursor == End(alignment, Lens(bindings))
      ensures BindingsOk(bindings, alignment, buffer, cursor)
    {
      if batch.Paths? && batch.paths != [] {
        hide BindingsOk, End, BatchLens, BatchData, Lens, Payloads;
        bindings, cursor := DrawPaths(batch.paths, hasView, before, start);
      } else {
        hide BindingsOk, End, Lens, Payloads;
        bindings, cursor := before, start;
        assert Lens(before) + [] == Lens(before) && Payloads(before) + [] == Payloads(before);
      }
    }

    /** The five primitive arrays, in their fixed order. */
    method WriteInstances(scene: Scene) returns (bindings: seq<Binding>, cursor: nat)
      requires Valid() && End(alignment, ArrayLens(scene)) <= capacity
      modifies this`buffer
      ensures Valid() && Lens(bindings) == ArrayLens(scene) && cursor == End(alignment, ArrayLens(scene))
      ensures BindingsOk(bindings, alignment, buffer, cursor)
      ensures Payloads(bindings) == ArrayData(scene)
    {
      hide Reserve, BindingsOk, End;
      var arrays := ArrayData(scene);
      bindings, cursor := [], 0;
      NothingBound(alignment, buffer);
      for i := 0 to 5
        invariant Valid() && |bindings| == i && BindingsOk(bindings, alignment, buffer, cursor)
        invariant Lens(bindings) == ArrayLens(scene)[..i] && cursor == End(alignment, ArrayLens(scene)[..i])
        invariant forall j :: 0 <= j < i ==> bindings[j].data == arrays[j]
      {
        assert ArrayLens(scene)[..i + 1] == ArrayLens(scene)[..i] + [|arrays[i]|];
        EndSnoc(alignment, ArrayLens(scene)[..i], |arrays[i]|);
        EndAppend(alignment, ArrayLens(scene)[..i + 1], ArrayLens(scene)[i + 1..]);
        assert ArrayLens(scene)[..i + 1] + ArrayLens(scene)[i + 1..] == ArrayLens(scene);
        var r;
        r, cursor := WriteInstanceBinding(cursor, arrays[i], bindings);
        assert Lens(bindings + [r.value]) == Lens(bindings) + [|arrays[i]|];
        bindings := bindings + [r.value];
      }
      assert ArrayLens(scene)[..5] == ArrayLens(scene);
    }

    /** Vertices first; the sprites follow only if there was something to rasterize into. */
    method DrawPaths(
      paths: seq<Path>, hasView: bool, before: seq<Binding>, start: nat) returns (bindings: seq<Binding>, cursor: nat)
      requires Valid() && paths != [] && BindingsOk(before, alignment, buffer, start)
      requires start == End(alignment, Lens(before))
      requires End(alignment, Lens(before) + BatchLens(codec, Paths(paths), hasView)) <= capacity
      modifies this`buffer
      ensures Valid()
      ensures Payloads(bindings) == Payloads(before) + BatchData(codec, Paths(paths), hasView)
      ensures Lens(bindings) == Lens(before) + BatchLens(codec, Paths(paths), hasView)
      ensures cursor == End(alignment, Lens(bindings))
      ensures BindingsOk(bindings, alignment, buffer, cursor)
    {
      hide BindingsOk, End, EncodeAll, PathSprites, Lens, Payloads, BatchLens, BatchData;
      bindings, cursor := before, start;
      var vertices := [];
      for i := 0 to |paths|
        invariant vertices == VertexBytes(paths[..i])
      {
        assert paths[..i + 1][..i] == paths[..i];
        vertices := vertices + paths[i].vertexBytes;
      }
      assert paths[..|paths|] == paths;
      PathsWrite(codec, paths, hasView);
      if vertices == [] {
        assert Lens(before) + [] == Lens(before) && Payloads(before) + [] == Payloads(before);
        return;
      }
      var sprites := BuildPathSprites(paths);
      var spriteBytes := EncodeAll(codec, sprites);
      bindings, cursor := WritePaths(vertices, spriteBytes, hasView, before, start);
    }

    method WritePaths(vertices: seq<Byte>, spriteBytes: seq<Byte>, hasView: bool, before: seq<Binding>, start: nat)
      returns (bindings: seq<Binding>, cursor: nat)
      requires Valid() && BindingsOk(before, alignment, buffer, start) && start == End(alignment, Lens(before))
      requires End(alignment, Lens(before) + if hasView then [|vertices|, |spriteBytes|] else [|vertices|]) <= capacity
      modifies this`buffer
      ensures Valid()
      ensures Payloads(bindings) == Payloads(before) + if hasView then [vertices, spriteBytes] else [vertices]
      ensures Lens(bindings) == Lens(before) + if hasView then [|vertices|, |spriteBytes|] else [|vertices|]
      ensures cursor == End(alignment, Lens(bindings))
      ensures BindingsOk(bindings, alignment, buffer, cursor)
    {
      hide BindingsOk, Reserve, End, Lens, Payloads;
      EndSnoc(alignment, Lens(before), |vertices|);
      EndTwo(alignment, Lens(before), |vertices|, |spriteBytes|);
      var middle := Reserve(start, alignment, |vertices|);
      ReserveMonotone(middle, middle, alignment, |spriteBytes|);
      var r;
      r, cursor := WriteInstanceBinding(start, vertices, before);
      OneMore(before, r.value);
      bindings := before + [r.value];
      if hasView {
        r, cursor := WriteInstanceBinding(cursor, spriteBytes, bindings);
        OneMore(bindings, r.value);
        bindings := bindings + [r.value];
        assert Lens(before) + [|vertices|] + [|spriteBytes|] == Lens(before) + [|vertices|, |spriteBytes|];
        assert Payloads(before) + [vertices] + [spriteBytes] == Payloads(before) + [vertices, spriteBytes];
      }
    }
  }

  lemma OneMore(bindings: seq<Binding>, b: Binding)
    ensures Lens(bindings + [b]) == Lens(bindings) + [|b.data|]
    ensures Payloads(bindings + [b]) == Payloads(bindings) + [b.data]
  {
  }

  lemma PathsWrite(codec: Codec, paths: seq<Path>, hasView: bool)
    requires CodecOk(codec)
    ensures var vertices, sprites := VertexBytes(paths), EncodeAll(codec, PathSprites(paths));
            if vertices == [] then
              BatchLens(codec, Paths(paths), hasView) == [] && BatchData(codec, Paths(paths), hasView) == []
            else
              && BatchLens(codec, Paths(paths), hasView) == (if hasView then [|vertices|, |sprites|] else [|vertices|])
              && BatchData(codec, Paths(paths), hasView) == (if hasView then [vertices, sprites] else [vertices])
  {
    EncodeAllLen(codec, PathSprites(paths));
  }

  lemma NothingBound(alignment: nat, buffer: seq<Byte>)
    ensures BindingsOk([], alignment, buffer, 0) && End(alignment, []) == 0
  {
  }

  lemma FiveEnds(alignment: nat, a: nat, b: nat, c: nat, d: nat, e: nat)
    ensures End(alignment, [a, b, c, d, e]) ==
            Reserve(Reserve(Reserve(Reserve(Reserve(0, alignment, a), alignment, b), alignment, c), alignment, d),
              alignment, e)
  {
    EndTwo(alignment, [], a, b);
    assert [] + [a, b] == [a, b];
    EndTwo(alignment, [a, b], c, d);
    assert [a, b] + [c, d] == [a, b, c, d];
    EndSnoc(alignment, [a, b, c, d], e);
    assert [a, b, c, d] + [e] == [a, b, c, d, e];
  }

  /** However the frame goes on, what it has written through batch `i` fits the prediction. */
  lemma DataSnoc(codec: Codec, scene: Scene, i: nat, hasView: bool)
    requires i < |scene.batches|
    ensures FrameData(codec, scene, scene.batches[..i + 1], hasView) ==
            FrameData(codec, scene, scene.batches[..i], hasView) + BatchData(codec, scene.batches[i], hasView)
  {
    assert scene.batches[..i + 1][..i] == scene.batches[..i];
  }

  lemma ArraysFirst(codec: Codec, scene: Scene, hasView: bool)
    ensures FrameLens(codec, scene, [], hasView) == ArrayLens(scene)
    ensures FrameData(codec, scene, [], hasView) == ArrayData(scene)
  {
  }

  lemma FitsAfter(codec: Codec, alignment: nat, scene: Scene, i: nat, hasView: bool)
    requires i < |scene.batches|
    ensures var lens := FrameLens(codec, scene, scene.batches[..i], hasView) +
            BatchLens(codec, scene.batches[i], hasView);
            && lens == FrameLens(codec, scene, scene.batches[..i + 1], hasView)
            && End(alignment, lens) <= End(alignment, FrameLens(codec, scene, scene.batches, true))
  {
    var done := scene.batches[..i + 1];
    assert done[..i] == scene.batches[..i];
    MissingViewEndsEarlier(codec, alignment, scene, done, hasView);
    PrefixEnds(codec, alignment, scene, i + 1);
  }

  lemma {:induction false} PrefixEnds(codec: Codec, alignment: nat, scene: Scene, i: nat)
    requires i <= |scene.batches|
    ensures End(alignment, FrameLens(codec, scene, scene.batches[..i], true)) <=
            End(alignment, FrameLens(codec, scene, scene.batches, true))
    decreases |scene.batches| - i
  {
    if i == |scene.batches| {
      assert scene.batches[..i] == scene.batches;
    } else {
      PrefixEnds(codec, alignment, scene, i + 1);
      assert scene.batches[..i + 1][..i] == scene.batches[..i];
      EndAppend(alignment, FrameLens(codec, scene, scene.batches[..i], true), BatchLens(codec, scene.batches[i], true));
    }
  }
}
