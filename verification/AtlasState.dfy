/** The data of the texture atlas, and the invariant that every operation keeps.

    Texture contents are the list of writes the GPU queue has executed on a texture: a
    texel holds what the last write that covers it put there.
 */
module AtlasState {
  import opened Basics

  /** Texture generations are 64-bit and wrap. */
  const GENERATIONS: nat := 0x1_0000_0000_0000_0000

  datatype Kind = Monochrome | Polychrome

  datatype Format = R8Unorm | Bgra8Unorm | Rgba8Unorm | OtherFormat

  datatype Extent = Extent(width: int, height: int)

  datatype Rect = Rect(x: int, y: int, width: int, height: int) {
    predicate Inside(px: int, py: int) {
      x <= px < x + width && y <= py < y + height
    }

    predicate Within(outer: Rect) {
      outer.x <= x && outer.y <= y && x + width <= outer.x + outer.width && y + height <= outer.y + outer.height
    }

    predicate Apart(other: Rect) {
      || x + width <= other.x || other.x + other.width <= x
      || y + height <= other.y || other.y + other.height <= y
    }
  }

  /** A cache key; the kind of texture it belongs in is part of it. */
  datatype Key = Key(name: nat, kind: Kind)

  datatype TextureId = TextureId(index: nat, kind: Kind)

  datatype Tile = Tile(textureId: TextureId, tileId: nat, bounds: Rect)

  datatype Upload = Upload(id: TextureId, bounds: Rect, data: seq<Byte>)

  datatype Write = Write(bounds: Rect, data: seq<Byte>, bytesPerPixel: nat)

  // ---- The rectangle allocator, known by its contract only ----

  datatype AllocatorEvent = Allocated(id: nat, size: Extent) | Deallocated(id: nat)

  /** `log` stands for whatever internal state the allocator keeps. */
  datatype Allocator = Allocator(size: Extent, live: map<nat, Rect>, log: seq<AllocatorEvent>)

  datatype Allocation = Allocation(id: nat, rect: Rect)

  type Policy = (Allocator, Extent) -> Option<Allocation>

  /** What an answer of the allocator may be: a fresh id and a rectangle in bounds, at least
      as large as asked for and apart from every live one. */
  predicate AnswerOk(a: Allocator, size: Extent, answer: Option<Allocation>) {
    answer.Some? ==>
      var Allocation(id, r) := answer.value;
      && id !in a.live
      && r.Within(Rect(0, 0, a.size.width, a.size.height))
      && size.width <= r.width && size.height <= r.height
      && forall other | other in a.live :: r.Apart(a.live[other])
  }

  ghost predicate PolicyOk(policy: Policy) {
    forall a, size :: AnswerOk(a, size, policy(a, size))
  }

  // ---- Textures and their slots ----

  datatype Texture = Texture(id: TextureId, generation: nat, allocator: Allocator, handle: nat, format: Format,
    liveKeys: nat) {
    function BytesPerPixel(): nat {
      match format
      case R8Unorm => 1
      case Bgra8Unorm => 4
      case Rgba8Unorm => 4
      case OtherFormat => 4
    }
  }

  datatype TextureList = TextureList(textures: seq<Option<Texture>>, freeList: seq<nat>)

  datatype Storage = Storage(monochrome: TextureList, polychrome: TextureList) {
    function At(kind: Kind): TextureList {
      match kind case Monochrome => monochrome case Polychrome => polychrome
    }

    function With(kind: Kind, list: TextureList): Storage {
      match kind
      case Monochrome => Storage(list, polychrome)
      case Polychrome => Storage(monochrome, list)
    }

    function Get(id: TextureId): Option<Texture> {
      if id.index < |At(id.kind).textures| then At(id.kind).textures[id.index] else None
    }

    /** The storage with the slot of `id` overwritten. */
    function Put(id: TextureId, slot: Option<Texture>): Storage
      requires id.index < |At(id.kind).textures|
    {
      With(id.kind, At(id.kind).(textures := At(id.kind).textures[id.index := slot]))
    }
  }

  const EMPTY_STORAGE := Storage(TextureList([], []), TextureList([], []))

  lemma GetPut(storage: Storage, id: TextureId, slot: Option<Texture>, other: TextureId)
    requires id.index < |storage.At(id.kind).textures|
    ensures storage.Put(id, slot).Get(other) == if other == id then slot else storage.Get(other)
  {
  }

  // ---- Texel contents ----

  /** The bytes that a write puts at a texel of its rectangle. */
  function TexelAt(w: Write, px: int, py: int): seq<Byte>
    requires w.bounds.Inside(px, py)
  {
    var offset := w.bytesPerPixel * (w.bounds.width * (py - w.bounds.y) + (px - w.bounds.x));
    if 0 <= offset && offset + w.bytesPerPixel <= |w.data| then w.data[offset..offset + w.bytesPerPixel] else []
  }

  /** What a texel holds after the given writes. */
  function Texel(writes: seq<Write>, px: int, py: int): Option<seq<Byte>> {
    if writes == [] then None
    else
      var w := writes[|writes| - 1];
      if w.bounds.Inside(px, py) then Some(TexelAt(w, px, py)) else Texel(writes[..|writes| - 1], px, py)
  }

  /** The writes that flushing `pending` performs on the texture `id`. */
  function WritesFor(pending: seq<Upload>, id: TextureId, bytesPerPixel: nat): seq<Write> {
    if pending == [] then []
    else
      var u := pending[|pending| - 1];
      var earlier := WritesFor(pending[..|pending| - 1], id, bytesPerPixel);
      if u.id == id then earlier + [Write(u.bounds, u.data, bytesPerPixel)] else earlier
  }

  /** The uploads that do not go to `id`. */
  function Without(pending: seq<Upload>, id: TextureId): seq<Upload> {
    if pending == [] then []
    else
      var u := pending[|pending| - 1];
      var earlier := Without(pending[..|pending| - 1], id);
      if u.id == id then earlier else earlier + [u]
  }

  lemma {:induction false} WithoutKeepsOthers(pending: seq<Upload>, id: TextureId, other: TextureId, bytesPerPixel: nat)
    requires other != id
    ensures WritesFor(Without(pending, id), other, bytesPerPixel) == WritesFor(pending, other, bytesPerPixel)
  {
    if pending != [] {
      var u := pending[|pending| - 1];
      var earlier := pending[..|pending| - 1];
      WithoutKeepsOthers(earlier, id, other, bytesPerPixel);
      if u.id != id {
        assert (Without(earlier, id) + [u])[..|Without(earlier, id)|] == Without(earlier, id);
      }
    }
  }

  lemma {:induction false} WithoutMembers(pending: seq<Upload>, id: TextureId)
    ensures forall u :: u in Without(pending, id) <==> u in pending && u.id != id
  {
    if pending != [] {
      WithoutMembers(pending[..|pending| - 1], id);
      assert pending == pending[..|pending| - 1] + [pending[|pending| - 1]];
    }
  }

  lemma {:induction false} NoWritesFor(pending: seq<Upload>, id: TextureId, bytesPerPixel: nat)
    requires forall u | u in pending :: u.id != id
    ensures WritesFor(pending, id, bytesPerPixel) == []
  {
    if pending != [] {
      NoWritesFor(pending[..|pending| - 1], id, bytesPerPixel);
    }
  }

  // ---- Swizzling ----

  /** Where the byte at `i` comes from when red and blue change places in every whole pixel. */
  function SwapIndex(i: nat, n: nat): (j: nat)
    requires i < n
    ensures j < n
  {
    if i < n - n % 4 && i % 4 == 0 then i + 2
    else if i < n - n % 4 && i % 4 == 2 then i - 2
    else i
  }

  function Swizzled(bytes: seq<Byte>, format: Format): (r: seq<Byte>)
    ensures |r| == |bytes|
  {
    if format == Rgba8Unorm then seq(|bytes|, i requires 0 <= i < |bytes| => bytes[SwapIndex(i, |bytes|)]) else bytes
  }

  /** Swizzling twice gives the bytes back, so no format loses information. */
  lemma SwizzleInvolution(bytes: seq<Byte>, format: Format)
    ensures Swizzled(Swizzled(bytes, format), format) == bytes
  {
    if format == Rgba8Unorm {
      var once := Swizzled(bytes, format);
      forall i: nat | i < |bytes| ensures Swizzled(once, format)[i] == bytes[i] {
        SwapIndexInvolution(i, |bytes|);
      }
    }
  }

  lemma SwapIndexInvolution(i: nat, n: nat)
    requires i < n
    ensures SwapIndex(SwapIndex(i, n), n) == i
  {
  }

  // ---- The invariant ----

  datatype State = State(
    storage: Storage,
    tiles: map<Key, Tile>,
    pending: seq<Upload>,
    gpu: map<nat, seq<Write>>,
    created: nat,
    bytesOf: map<Key, seq<Byte>>
  )

  const EMPTY_STATE := State(EMPTY_STORAGE, map[], [], map[], 0, map[])

  ghost function KeysIn(tiles: map<Key, Tile>, id: TextureId): set<Key> {
    set k | k in tiles && tiles[k].textureId == id
  }

  /** A live texture sits in its own slot, counts its keys, and its allocator has exactly as
      many live rectangles, pairwise apart. */
  ghost predicate TextureOk(s: State, id: TextureId) {
    s.storage.Get(id).Some? ==>
      var t := s.storage.Get(id).value;
      && t.id == id
      && t.handle < s.created && t.handle in s.gpu
      && t.generation == t.handle % GENERATIONS
      && t.liveKeys == |KeysIn(s.tiles, id)| == |t.allocator.live|
      && LiveApart(t.allocator.live)
  }

  ghost predicate LiveApart(live: map<nat, Rect>) {
    forall i, j | i in live && j in live && i != j :: live[i].Apart(live[j])
  }

  ghost predicate TileOk(s: State, key: Key)
    requires key in s.tiles
  {
    var tile := s.tiles[key];
    && tile.textureId.kind == key.kind
    && s.storage.Get(tile.textureId).Some?
    && var live := s.storage.Get(tile.textureId).value.allocator.live;
       tile.tileId in live && tile.bounds.Within(live[tile.tileId])
  }

  ghost predicate ListOk(list: TextureList) {
    && Distinct(list.freeList)
    && (forall i: nat :: i in list.freeList <==> i < |list.textures| && list.textures[i] == None)
  }

  /** Everything a live texture will have received once the pending uploads are flushed. */
  ghost function Projected(s: State, t: Texture): seq<Write>
    requires t.handle in s.gpu
  {
    s.gpu[t.handle] + WritesFor(s.pending, t.id, t.BytesPerPixel())
  }

  /** The bytes a key's tile must show: what was passed in, in the texture's byte order. */
  ghost function Expected(s: State, key: Key): Write
    requires key in s.tiles && key in s.bytesOf && s.storage.Get(s.tiles[key].textureId).Some?
  {
    var t := s.storage.Get(s.tiles[key].textureId).value;
    Write(s.tiles[key].bounds, Swizzled(s.bytesOf[key], t.format), t.BytesPerPixel())
  }

  ghost predicate Shows(writes: seq<Write>, w: Write) {
    forall px, py | w.bounds.Inside(px, py) :: Texel(writes, px, py) == Some(TexelAt(w, px, py))
  }

  ghost predicate ContentOk(s: State, key: Key) {
    && key in s.tiles && key in s.bytesOf
    && s.storage.Get(s.tiles[key].textureId).Some?
    && var t := s.storage.Get(s.tiles[key].textureId).value;
       t.handle in s.gpu && Shows(Projected(s, t), Expected(s, key))
  }

  ghost predicate Lists(s: State) {
    ListOk(s.storage.monochrome) && ListOk(s.storage.polychrome)
  }

  ghost predicate Textures(s: State) {
    forall id :: TextureOk(s, id)
  }

  /** No two slots hold the same GPU texture. */
  ghost predicate Handles(s: State) {
    forall a, b | s.storage.Get(a).Some? && s.storage.Get(b).Some? &&
      s.storage.Get(a).value.handle == s.storage.Get(b).value.handle :: a == b
  }

  ghost predicate Tiles(s: State) {
    forall k | k in s.tiles :: TileOk(s, k)
  }

  /** No two keys share an allocation. */
  ghost predicate Injective(s: State) {
    forall a, b | a in s.tiles && b in s.tiles && s.tiles[a].textureId == s.tiles[b].textureId &&
      s.tiles[a].tileId == s.tiles[b].tileId :: a == b
  }

  ghost predicate PendingLive(s: State) {
    forall u | u in s.pending :: s.storage.Get(u.id).Some?
  }

  ghost predicate Contents(s: State) {
    forall k | k in s.tiles :: ContentOk(s, k)
  }

  ghost predicate Inv(s: State) {
    Lists(s) && Textures(s) && Handles(s) && Tiles(s) && Injective(s) && PendingLive(s) && Contents(s)
  }
}
