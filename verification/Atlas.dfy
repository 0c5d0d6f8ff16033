/** The texture atlas itself, and the renderer's cache of bind groups for its textures. */
module Atlas {
  import opened Basics
  import opened AtlasState
  import opened AtlasSteps

  /** What the caller's build callback returns when it is asked for a tile. */
  datatype Build = Failed | Nothing | Built(size: Extent, bytes: seq<Byte>)

  /** Copies the bytes, swapping red and blue of every whole pixel for RGBA textures. */
  method SwizzleUploadData(bytes: seq<Byte>, format: Format) returns (data: seq<Byte>)
    ensures data == Swizzled(bytes, format) && |data| == |bytes|
    ensures format != Rgba8Unorm ==> data == bytes
    ensures format == Rgba8Unorm ==>
              && (forall at: nat :: at % 4 == 0 && at + 4 <= |bytes| ==> RedBlueSwapped(bytes, data, at))
              && (forall i: nat :: |bytes| - |bytes| % 4 <= i < |bytes| ==> data[i] == bytes[i])
  {
    SwizzledPixels(bytes, format);
    hide Swizzled;
    if format != Rgba8Unorm {
      return bytes;
    }
    ghost var swapped := Swizzled(bytes, format);
    var pixels := new Byte[|bytes|](i requires 0 <= i < |bytes| => bytes[i]);
    var n := |bytes| - |bytes| % 4;
    var at := 0;
    while at < n
      invariant at % 4 == 0 && 0 <= at <= n
      invariant forall i: nat :: i < at ==> pixels[i] == swapped[i]
      invariant forall i: nat :: at <= i < |bytes| ==> pixels[i] == bytes[i]
    {
      PixelSwap(at, |bytes|);
      assert RedBlueSwapped(bytes, swapped, at);
      pixels[at], pixels[at + 2] := pixels[at + 2], pixels[at];
      at := at + 4;
    }
    data := pixels[..];
    assert data == swapped;
  }

  /** The four bytes at `at` hold red and blue the other way round, and green and alpha alike. */
  predicate RedBlueSwapped(from: seq<Byte>, to: seq<Byte>, at: nat) {
    && at + 4 <= |from| && at + 4 <= |to|
    && to[at] == from[at + 2] && to[at + 2] == from[at]
    && to[at + 1] == from[at + 1] && to[at + 3] == from[at + 3]
  }

  /** What swizzling does, pixel by pixel: nothing, but for the RGBA format. */
  lemma SwizzledPixels(bytes: seq<Byte>, format: Format)
    ensures format != Rgba8Unorm ==> Swizzled(bytes, format) == bytes
    ensures format == Rgba8Unorm ==>
              && (forall at: nat :: at % 4 == 0 && at + 4 <= |bytes| ==>
                    RedBlueSwapped(bytes, Swizzled(bytes, format), at))
              && (forall i: nat :: |bytes| - |bytes| % 4 <= i < |bytes| ==> Swizzled(bytes, format)[i] == bytes[i])
  {
    if format == Rgba8Unorm {
      forall at: nat | at % 4 == 0 && at + 4 <= |bytes| ensures RedBlueSwapped(bytes, Swizzled(bytes, format), at) {
        PixelSwap(at, |bytes|);
      }
      TailKept(|bytes|);
    }
  }

  /** What the swap does to the four bytes of one whole pixel. */
  lemma PixelSwap(at: nat, n: nat)
    requires at % 4 == 0 && at < n - n % 4
    ensures at + 4 <= n - n % 4 && (at + 4) % 4 == 0
    ensures SwapIndex(at, n) == at + 2 && SwapIndex(at + 1, n) == at + 1
    ensures SwapIndex(at + 2, n) == at && SwapIndex(at + 3, n) == at + 3
  {
  }

  lemma TailKept(n: nat)
    ensures forall i: nat :: n - n % 4 <= i < n ==> SwapIndex(i, n) == i
  {
  }

  class WgpuAtlas {
    const policy: Policy
    const maxTextureSize: int
    const initialSize: Extent
    var colorFormat: Format
    var storage: Storage
    var tilesByKey: map<Key, Tile>
    var pendingUploads: seq<Upload>
    var nextGeneration: nat
    /** The GPU: contents of every texture created so far, and how many there are. */
    var gpu: map<nat, seq<Write>>
    var created: nat
    /** The bytes each cached key was inserted with. */
    ghost var bytesOf: map<Key, seq<Byte>>

    ghost function View(): State
      reads this
    {
      State(storage, tilesByKey, pendingUploads, gpu, created, bytesOf)
    }

    ghost function Config(): AtlasConfig
      reads this`colorFormat
    {
      AtlasConfig(policy, maxTextureSize, initialSize, colorFormat)
    }

    ghost predicate Valid()
      reads this
    {
      PolicyOk(policy) && Inv(View()) && nextGeneration == created % GENERATIONS
    }

    constructor (policy: Policy, maxTextureSize: int, initialSize: Extent, colorFormat: Format)
      requires PolicyOk(policy)
      ensures Valid() && View() == EMPTY_STATE
      ensures Config() == AtlasConfig(policy, maxTextureSize, initialSize, colorFormat)
    {
      this.policy, this.maxTextureSize, this.initialSize, this.colorFormat :=
        policy, maxTextureSize, initialSize, colorFormat;
      storage, tilesByKey, pendingUploads, nextGeneration := EMPTY_STORAGE, map[], [], 0;
      gpu, created, bytesOf := map[], 0, map[];
      new;
      EmptyInv(View());
    }

    /** Drops every texture and tile; the generation counter goes on. */
    method Clear()
      requires Valid()
      modifies this
      ensures Valid() && tilesByKey == map[] && storage == EMPTY_STORAGE && pendingUploads == []
      ensures gpu == old(gpu) && created == old(created) && bytesOf == map[] && colorFormat == old(colorFormat)
    {
      storage, tilesByKey, pendingUploads, bytesOf := EMPTY_STORAGE, map[], [], map[];
      EmptyInv(View());
    }

    method HandleDeviceLost(newFormat: Format)
      requires Valid()
      modifies this
      ensures Valid() && tilesByKey == map[] && storage == EMPTY_STORAGE && pendingUploads == []
      ensures gpu == old(gpu) && created == old(created) && bytesOf == map[] && colorFormat == newFormat
    {
      colorFormat := newFormat;
      storage, tilesByKey, pendingUploads, bytesOf := EMPTY_STORAGE, map[], [], map[];
      EmptyInv(View());
    }

    /** Makes the pending uploads, in order; afterwards every cached tile shows its own bytes. */
    method BeforeFrame()
      requires Valid()
      modifies this`pendingUploads, this`gpu
      ensures Valid() && View() == AfterFlush(old(View()))
      ensures forall k | k in tilesByKey :: Shown(View(), k)
    {
      hide Inv, Shown, Storage.Get;
      FlushKeepsInv(View());
      ghost var before, target := gpu, AfterFlush(View());
      var i := 0;
      while i < |pendingUploads|
        invariant 0 <= i <= |pendingUploads|
        invariant pendingUploads == old(pendingUploads)
        invariant gpu == FlushedGpu(storage, pendingUploads[..i], before)
      {
        var upload := pendingUploads[i];
        assert pendingUploads[..i + 1][..i] == pendingUploads[..i];
        var slot := storage.Get(upload.id);
        if slot.Some? {
          var texture := slot.value;
          var written := if texture.handle in gpu then gpu[texture.handle] else [];
          gpu := gpu[texture.handle := written + [Write(upload.bounds, upload.data, texture.BytesPerPixel())]];
        }
        i := i + 1;
      }
      assert pendingUploads[..i] == pendingUploads;
      pendingUploads := [];
      assert View() == target;
    }

    /** The tile cached for `key`; on a miss, one made from what the callback built. */
    method GetOrInsertWith(key: Key, build: Build) returns (r: Result<Option<Tile>>)
      requires Valid()
      modifies this
      ensures Valid() && colorFormat == old(colorFormat)
      ensures key in old(tilesByKey) ==> r == Ok(Some(old(tilesByKey)[key])) && View() == old(View())
      ensures key !in old(tilesByKey) && build == Failed ==> r == Err && View() == old(View())
      ensures key !in old(tilesByKey) && build == Nothing ==> r == Ok(None) && View() == old(View())
      ensures key !in old(tilesByKey) && build.Built? ==>
                Attempted(Config(), old(View()), View(), key, build.size, build.bytes, r)
      ensures old(created) <= created
    {
      if key in tilesByKey {
        return Ok(Some(tilesByKey[key]));
      }
      match build {
        case Failed => return Err;
        case Nothing => return Ok(None);
        case Built(size, bytes) =>
          r := InsertTile(key, size, bytes);
      }
    }

    method InsertTile(key: Key, size: Extent, bytes: seq<Byte>) returns (r: Result<Option<Tile>>)
      requires Valid() && key !in tilesByKey
      modifies this`storage, this`tilesByKey, this`pendingUploads, this`nextGeneration, this`gpu, this`created,
        this`bytesOf
      ensures Valid() && old(created) <= created
      ensures Attempted(Config(), old(View()), View(), key, size, bytes, r)
    {
      hide Inv, AnswerOk, Swizzled, AddsTexture, Refused;
      var slot;
      ghost var base, t, a;
      slot, base, t, a := Allocate(size, key.kind);
      if slot == None {
        return Err;
      }
      var tile := slot.value;
      InsertKeepsInv(base, key, t, a, size, bytes);
      UploadTexture(tile.textureId, tile.bounds, bytes);
      tilesByKey := tilesByKey[key := tile];
      bytesOf := bytesOf[key := bytes];
      assert View() == AfterInsert(base, key, t, a, size, bytes);
      assert PlacedIn(Config(), old(View()), base, t, a, key.kind, size);
      return Ok(Some(tile));
    }

    method UploadTexture(id: TextureId, bounds: Rect, bytes: seq<Byte>)
      modifies this`pendingUploads
      ensures var slot := storage.Get(id);
              pendingUploads == old(pendingUploads) +
                [Upload(id, bounds, if slot.Some? then Swizzled(bytes, slot.value.format) else bytes)]
    {
      var data := bytes;
      var slot := storage.Get(id);
      if slot.Some? {
        data := SwizzleUploadData(bytes, slot.value.format);
      }
      pendingUploads := pendingUploads + [Upload(id, bounds, data)];
    }

    /** Room for a tile: in the newest texture of the kind that accepts it, or in a new one. */
    method Allocate(
      size: Extent, kind: Kind) returns (r: Option<Tile>, ghost base: State, ghost t: Texture, ghost a: Allocation)
      requires Valid()
      modifies this`storage, this`gpu, this`created, this`nextGeneration
      ensures Inv(base) && base.tiles == tilesByKey && base.bytesOf == bytesOf && base.pending == pendingUploads
      ensures nextGeneration == created % GENERATIONS
      ensures old(created) <= created
      ensures r == None ==> View() == base && Refused(Config(), old(View()), base, kind, size)
      ensures r.Some? ==>
                && PlacedIn(Config(), old(View()), base, t, a, kind, size) && AnswerOk(t.allocator, size, Some(a))
                && r.value == TileFor(t, a, size)
                && View() == base.(storage := base.storage.Put(t.id, Some(WithAllocation(t, a, size))))
    {
      hide Inv;
      base := View();
      a := Allocation(0, Rect(0, 0, 0, 0));
      var i := |storage.At(kind).textures|;
      while i > 0
        invariant 0 <= i <= |storage.At(kind).textures|
        invariant AllRefuse(policy, storage.At(kind).textures[i..], size)
      {
        i := i - 1;
        assert storage.At(kind).textures[i..] == [storage.At(kind).textures[i]] + storage.At(kind).textures[i + 1..];
        var slot := storage.At(kind).textures[i];
        if slot.Some? {
          var answer := policy(slot.value.allocator, size);
          if answer.Some? {
            t, a := slot.value, answer.value;
            assert t.id == TextureId(i, kind) by { SlotId(View(), TextureId(i, kind)); }
            storage := storage.Put(TextureId(i, kind), Some(WithAllocation(slot.value, answer.value, size)));
            return Some(TileFor(slot.value, answer.value, size)), base, t, a;
          }
        }
      }
      assert storage.At(kind).textures[0..] == storage.At(kind).textures;
      var index := PushTexture(size, kind);
      base := View();
      var texture := storage.At(kind).textures[index].value;
      t := texture;
      var answer := policy(texture.allocator, size);
      if answer == None {
        return None, base, t, a;
      }
      a := answer.value;
      storage := storage.Put(TextureId(index, kind), Some(WithAllocation(texture, answer.value, size)));
      r := Some(TileFor(texture, answer.value, size));
    }

    method PushTexture(minSize: Extent, kind: Kind) returns (index: nat)
      requires Valid()
      modifies this`storage, this`gpu, this`created, this`nextGeneration
      ensures Valid()
      ensures AddsTexture(old(View()), View(), kind, TextureSize(minSize, initialSize, maxTextureSize),
              FormatFor(kind, colorFormat))
      ensures index == NextIndex(old(storage).At(kind)) && index < |storage.At(kind).textures|
      ensures storage.At(kind).textures[index].Some?
      ensures storage.At(kind).textures[index].value.id == TextureId(index, kind)
    {
      hide Inv;
      var size := TextureSize(minSize, initialSize, maxTextureSize);
      var format := FormatFor(kind, colorFormat);
      PushKeepsInv(View(), kind, size, format);
      ghost var target := AfterPush(View(), kind, size, format);
      var list := storage.At(kind);
      index := NextIndex(list);
      var texture := Texture(TextureId(index, kind), nextGeneration, Allocator(size, map[], []), created, format, 0);
      gpu := gpu[created := []];
      created := created + 1;
      nextGeneration := (nextGeneration + 1) % GENERATIONS;
      WrapStep(created - 1);
      storage := storage.With(kind, Pushed(list, texture));
      assert View() == target;
    }

    /** Forgets `key`; the texture goes with its last key, and takes its pending uploads along. */
    method Remove(key: Key)
      requires Valid()
      modifies this`storage, this`tilesByKey, this`pendingUploads, this`bytesOf
      ensures Valid()
      ensures tilesByKey == old(tilesByKey) - {key}
      ensures key !in old(tilesByKey) ==> View() == old(View())
      ensures key in old(tilesByKey) ==>
                var id := old(tilesByKey)[key].textureId;
                && old(storage.Get(id)).Some? && old(storage.Get(id)).value.liveKeys > 0
                && View() == AfterRemove(old(View()), key)
                && (storage.Get(id) == None <==> old(storage.Get(id)).value.liveKeys == 1)
    {
      hide Inv;
      if key !in tilesByKey {
        assert tilesByKey - {key} == tilesByKey;
        return;
      }
      RemoveKeepsInv(View(), key);
      ghost var target := AfterRemove(View(), key);
      var tile := tilesByKey[key];
      tilesByKey := tilesByKey - {key};
      bytesOf := bytesOf - {key};
      var id := tile.textureId;
      var texture := WithoutAllocation(storage.Get(id).value, tile.tileId);
      if texture.liveKeys == 0 {
        storage := storage.Put(id, None);
        pendingUploads := RetainUploads(pendingUploads, id);
        var list := storage.At(id.kind);
        storage := storage.With(id.kind, list.(freeList := list.freeList + [id.index]));
      } else {
        storage := storage.Put(id, Some(texture));
      }
      assert View() == target;
    }
  }

  /** `retain` over the upload queue. */
  method RetainUploads(pending: seq<Upload>, id: TextureId) returns (kept: seq<Upload>)
    ensures kept == Without(pending, id)
    ensures forall u :: u in kept <==> u in pending && u.id != id
  {
    kept := [];
    for i := 0 to |pending|
      invariant kept == Without(pending[..i], id)
    {
      assert pending[..i + 1][..i] == pending[..i];
      if pending[i].id != id {
        kept := kept + [pending[i]];
      }
    }
    assert pending[..|pending|] == pending;
    WithoutMembers(pending, id);
  }

  /** The size of a new texture: what the tile needs, at least the initial and at most the
      maximal size, in each dimension. */
  function TextureSize(minSize: Extent, initial: Extent, max: int): Extent {
    Extent(Min(Max(minSize.width, initial.width), max), Min(Max(minSize.height, initial.height), max))
  }

  /** In each dimension: never past the maximum; otherwise room for the tile and no smaller than a
      texture starts out, and no larger than one of these asks for. */
  lemma TextureSizeIs(minSize: Extent, initial: Extent, max: int)
    ensures var size := TextureSize(minSize, initial, max);
            && size.width <= max && size.height <= max
            && (size.width < max ==> minSize.width <= size.width && initial.width <= size.width)
            && (size.height < max ==> minSize.height <= size.height && initial.height <= size.height)
            && size.width in {minSize.width, initial.width, max}
            && size.height in {minSize.height, initial.height, max}
            && (minSize.width <= max && initial.width <= max ==> size.width in {minSize.width, initial.width})
            && (minSize.height <= max && initial.height <= max ==> size.height in {minSize.height, initial.height})
  {
  }

  function FormatFor(kind: Kind, color: Format): Format {
    match kind case Monochrome => R8Unorm case Polychrome => color
  }

  /** The state has one more texture, live and empty, and is otherwise the same: what a failed
      insert of an oversized tile leaves behind. */
  ghost predicate AddsTexture(s: State, s': State, kind: Kind, size: Extent, format: Format) {
    && (s.storage.At(kind).freeList != [] ==> NextIndex(s.storage.At(kind)) < |s.storage.At(kind).textures|)
    && s' == AfterPush(s, kind, size, format)
  }

  /** What decides where a tile goes, besides the state. */
  datatype AtlasConfig = AtlasConfig(policy: Policy, maxTextureSize: int, initialSize: Extent, colorFormat: Format)

  /** No room for a tile in the slots: each is empty, or its allocator refuses. */
  predicate AllRefuse(policy: Policy, slots: seq<Option<Texture>>, size: Extent) {
    forall j :: 0 <= j < |slots| && slots[j].Some? ==> policy(slots[j].value.allocator, size) == None
  }

  /** Every texture of the kind refuses, and a new one was added. */
  ghost predicate Grown(c: AtlasConfig, s: State, base: State, kind: Kind, size: Extent) {
    && AllRefuse(c.policy, s.storage.At(kind).textures, size)
    && AddsTexture(s, base, kind, TextureSize(size, c.initialSize, c.maxTextureSize), FormatFor(kind, c.colorFormat))
  }

  /** The new texture refuses as well. */
  ghost predicate Refused(c: AtlasConfig, s: State, base: State, kind: Kind, size: Extent) {
    && Grown(c, s, base, kind, size)
    && var slot := base.storage.Get(TextureId(NextIndex(s.storage.At(kind)), kind));
       slot.Some? && c.policy(slot.value.allocator, size) == None
  }

  /** The tile goes to the last texture of its kind that accepts it: one of `s`, or, if they
      all refuse, the one just added. */
  ghost predicate PlacedIn(
    c: AtlasConfig, s: State, base: State, t: Texture, a: Allocation, kind: Kind, size: Extent)
  {
    && t.id.kind == kind && base.storage.Get(t.id) == Some(t) && c.policy(t.allocator, size) == Some(a)
    && if base == s then AllRefuse(c.policy, s.storage.At(kind).textures[t.id.index + 1..], size)
       else Grown(c, s, base, kind, size) && t.id.index == NextIndex(s.storage.At(kind))
  }

  /** The whole outcome of inserting a missing key: the tile is placed, its upload queued and
      its bytes recorded; or there is no room and only an empty texture remains. */
  ghost predicate Attempted(
    c: AtlasConfig, s: State, s': State, key: Key, size: Extent, bytes: seq<Byte>, r: Result<Option<Tile>>)
  {
    match r
    case Ok(slot) =>
      exists base, t, a {:trigger PlacedIn(c, s, base, t, a, key.kind, size)} ::
        && PlacedIn(c, s, base, t, a, key.kind, size)
        && slot == Some(TileFor(t, a, size)) && s' == AfterInsert(base, key, t, a, size, bytes)
    case Err => Refused(c, s, s', key.kind, size)
  }

  lemma SlotId(s: State, id: TextureId)
    requires Inv(s) && s.storage.Get(id).Some?
    ensures s.storage.Get(id).value.id == id
  {
    assert TextureOk(s, id);
  }

  lemma WrapStep(n: nat)
    ensures (n % GENERATIONS + 1) % GENERATIONS == (n + 1) % GENERATIONS
  {
  }

  // ---- Bind groups ----

  /** A bind group for a texture, tagged with the generation it was made for. */
  datatype CachedBindGroup = CachedBindGroup(generation: nat, view: nat)

  datatype Batch = Sprites(textureId: TextureId, count: nat) | OtherBatch

  ghost predicate InScene(batches: seq<Batch>, id: TextureId) {
    exists i :: 0 <= i < |batches| && batches[i].Sprites? && batches[i].textureId == id
  }

  /** Cached groups are of textures that once existed, and carry those textures' generations. */
  ghost predicate CacheOk(groups: map<TextureId, CachedBindGroup>, created: nat) {
    forall id | id in groups :: groups[id].view < created && groups[id].generation == groups[id].view % GENERATIONS
  }

  class Renderer {
    const atlas: WgpuAtlas
    var bindGroups: map<TextureId, CachedBindGroup>

    ghost predicate Valid()
      reads this, atlas
    {
      atlas.Valid() && CacheOk(bindGroups, atlas.created)
    }

    constructor (atlas: WgpuAtlas)
      requires atlas.Valid()
      ensures this.atlas == atlas && Valid()
    {
      this.atlas := atlas;
      bindGroups := map[];
    }

    /** Brings the cache in line with the scene: groups for exactly the live textures in it. */
    method PrepareTextureBindGroups(batches: seq<Batch>)
      requires Valid()
      modifies this
      ensures Valid()
      ensures forall id :: id in bindGroups <==> InScene(batches, id) && atlas.storage.Get(id).Some?
      ensures forall id | id in bindGroups :: bindGroups[id].generation == atlas.storage.Get(id).value.generation
    {
      hide Inv, InScene, Storage.Get;
      var textureIds := SceneTextures(batches);
      bindGroups := map id | id in bindGroups && id in textureIds :: bindGroups[id];
      for i := 0 to |textureIds|
        invariant CacheOk(bindGroups, atlas.created)
        invariant forall id | id in bindGroups :: id in textureIds
        invariant forall j :: 0 <= j < i ==> GroupCurrent(bindGroups, atlas.storage, textureIds[j])
      {
        var id := textureIds[i];
        var slot := atlas.storage.Get(id);
        if slot == None {
          bindGroups := bindGroups - {id};
        } else if !(id in bindGroups && bindGroups[id].generation == slot.value.generation) {
          HandleExists(atlas.View(), id);
          bindGroups := bindGroups[id := CachedBindGroup(slot.value.generation, slot.value.handle)];
        }
      }
      AllCurrent(bindGroups, atlas.storage, textureIds);
    }

    /** One frame: uploads are flushed, the cache is prepared, and every sprite batch binds the
        texture found in the cache, or is skipped. */
    method DrawFrame(batches: seq<Batch>) returns (bound: seq<Option<nat>>)
      requires Valid()
      modifies this, atlas`pendingUploads, atlas`gpu
      ensures Valid() && atlas.View() == AfterFlush(old(atlas.View()))
      ensures |bound| == |batches|
      ensures forall i :: 0 <= i < |batches| ==>
                (bound[i].Some? <==>
                   batches[i].Sprites? && batches[i].count > 0 && atlas.storage.Get(batches[i].textureId).Some?)
      ensures atlas.created <= GENERATIONS ==>
                forall i :: 0 <= i < |batches| && bound[i].Some? ==>
                  bound[i].value == atlas.storage.Get(batches[i].textureId).value.handle
      ensures forall i :: 0 <= i < |batches| && bound[i].Some? ==>
                bound[i].value % GENERATIONS == atlas.storage.Get(batches[i].textureId).value.handle % GENERATIONS
      ensures atlas.created <= GENERATIONS ==>
                forall i, k | 0 <= i < |batches| && bound[i].Some? && k in atlas.tilesByKey &&
                  atlas.tilesByKey[k].textureId == batches[i].textureId :: DrawsKey(atlas.View(), k, bound[i].value)
    {
      hide Inv, AfterFlush;
      atlas.BeforeFrame();
      PrepareTextureBindGroups(batches);
      bound := [];
      for i := 0 to |batches|
        invariant |bound| == i
        invariant forall j :: 0 <= j < i ==> bound[j] == BoundFor(bindGroups, batches[j])
      {
        var texture := None;
        if batches[i].Sprites? && batches[i].count > 0 && batches[i].textureId in bindGroups {
          texture := Some(bindGroups[batches[i].textureId].view);
        }
        bound := bound + [texture];
      }
      forall i | 0 <= i < |batches| && batches[i].Sprites? ensures InScene(batches, batches[i].textureId) {}
      forall i | 0 <= i < |batches| && bound[i].Some?
        ensures bound[i].value % GENERATIONS == atlas.storage.Get(batches[i].textureId).value.handle % GENERATIONS
        ensures atlas.created <= GENERATIONS ==> bound[i].value == atlas.storage.Get(batches[i].textureId).value.handle
      {
        HandleExists(atlas.View(), batches[i].textureId);
      }
    }
  }

  /** The sprite textures of a scene, each once, in order of first use. */
  method SceneTextures(batches: seq<Batch>) returns (textureIds: seq<TextureId>)
    ensures forall id :: id in textureIds <==> InScene(batches, id)
    ensures Distinct(textureIds)
  {
    textureIds := [];
    for i := 0 to |batches|
      invariant forall id :: id in textureIds <==> InScene(batches[..i], id)
      invariant Distinct(textureIds)
    {
      SceneGrows(batches, i);
      if batches[i].Sprites? && batches[i].textureId !in textureIds {
        textureIds := textureIds + [batches[i].textureId];
      }
    }
    assert batches[..|batches|] == batches;
  }

  ghost predicate GroupCurrent(groups: map<TextureId, CachedBindGroup>, storage: Storage, id: TextureId) {
    && (id in groups <==> storage.Get(id).Some?)
    && (id in groups ==> groups[id].generation == storage.Get(id).value.generation)
  }

  lemma AllCurrent(groups: map<TextureId, CachedBindGroup>, storage: Storage, textureIds: seq<TextureId>)
    requires forall id | id in groups :: id in textureIds
    requires forall j :: 0 <= j < |textureIds| ==> GroupCurrent(groups, storage, textureIds[j])
    ensures forall id :: id in groups <==> id in textureIds && storage.Get(id).Some?
    ensures forall id | id in groups :: groups[id].generation == storage.Get(id).value.generation
  {
  }

  function BoundFor(groups: map<TextureId, CachedBindGroup>, batch: Batch): Option<nat> {
    if batch.Sprites? && batch.count > 0 && batch.textureId in groups then Some(groups[batch.textureId].view) else None
  }

  /** A batch that binds `handle` samples exactly the bytes of `key` in that key's tile. */
  ghost predicate DrawsKey(s: State, key: Key, handle: nat) {
    && key in s.tiles && key in s.bytesOf && s.storage.Get(s.tiles[key].textureId).Some?
    && handle in s.gpu && Shows(s.gpu[handle], Expected(s, key))
  }

  lemma SceneGrows(batches: seq<Batch>, i: nat)
    requires i < |batches|
    ensures forall id :: InScene(batches[..i + 1], id) <==>
              InScene(batches[..i], id) || (batches[i].Sprites? && batches[i].textureId == id)
  {
    forall id ensures InScene(batches[..i + 1], id) <==>
              InScene(batches[..i], id) || (batches[i].Sprites? && batches[i].textureId == id)
    {
      if InScene(batches[..i], id) {
        var j :| 0 <= j < i && batches[..i][j].Sprites? && batches[..i][j].textureId == id;
        assert batches[..i + 1][j] == batches[..i][j];
      }
      if batches[i].Sprites? && batches[i].textureId == id {
        assert batches[..i + 1][i] == batches[i];
      }
      if InScene(batches[..i + 1], id) {
        var j :| 0 <= j < i + 1 && batches[..i + 1][j].Sprites? && batches[..i + 1][j].textureId == id;
        assert j < i ==> batches[..i][j] == batches[..i + 1][j];
      }
    }
  }

  lemma HandleExists(s: State, id: TextureId)
    requires Inv(s) && s.storage.Get(id).Some?
    ensures var t := s.storage.Get(id).value; t.handle < s.created && t.generation == t.handle % GENERATIONS
  {
    assert TextureOk(s, id);
  }
}
