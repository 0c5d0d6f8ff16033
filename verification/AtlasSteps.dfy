/** What each atlas operation does to the state, and why the invariant survives it. */
module AtlasSteps {
  import opened Basics
  import opened AtlasState

  // ---- Adding a texture ----

  function NextIndex(list: TextureList): nat {
    if list.freeList != [] then list.freeList[|list.freeList| - 1] else |list.textures|
  }

  /** The list after `t` took a free slot, or a new one at the end. */
  function Pushed(list: TextureList, t: Texture): TextureList
    requires list.freeList != [] ==> NextIndex(list) < |list.textures|
  {
    if list.freeList != [] then
      TextureList(list.textures[NextIndex(list) := Some(t)], list.freeList[..|list.freeList| - 1])
    else
      TextureList(list.textures + [Some(t)], list.freeList)
  }

  function FreshTexture(s: State, kind: Kind, size: Extent, format: Format): Texture {
    Texture(TextureId(NextIndex(s.storage.At(kind)), kind), s.created % GENERATIONS,
            Allocator(size, map[], []), s.created, format, 0)
  }

  function AfterPush(s: State, kind: Kind, size: Extent, format: Format): State
    requires s.storage.At(kind).freeList != [] ==> NextIndex(s.storage.At(kind)) < |s.storage.At(kind).textures|
  {
    var t := FreshTexture(s, kind, size, format);
    s.(storage := s.storage.With(kind, Pushed(s.storage.At(kind), t)),
       gpu := s.gpu[s.created := []], created := s.created + 1)
  }

  lemma PushSlot(s: State, kind: Kind, size: Extent, format: Format)
    requires ListOk(s.storage.At(kind))
    ensures s.storage.At(kind).freeList != [] ==> NextIndex(s.storage.At(kind)) < |s.storage.At(kind).textures|
    ensures var t := FreshTexture(s, kind, size, format);
            var s' := AfterPush(s, kind, size, format);
            && s.storage.Get(t.id) == None
            && (forall id :: s'.storage.Get(id) == if id == t.id then Some(t) else s.storage.Get(id))
            && ListOk(s'.storage.At(kind))
  {
    var list := s.storage.At(kind);
    if list.freeList != [] {
      assert list.freeList[|list.freeList| - 1] in list.freeList;
      var t := FreshTexture(s, kind, size, format);
      PopKeepsList(list, t);
    }
  }

  lemma PopKeepsList(list: TextureList, t: Texture)
    requires ListOk(list) && list.freeList != [] && NextIndex(list) < |list.textures|
    ensures ListOk(Pushed(list, t))
  {
    var after := Pushed(list, t);
    var ix := NextIndex(list);
    assert list.freeList == after.freeList + [ix];
    forall i: nat ensures i in after.freeList <==> i < |after.textures| && after.textures[i] == None {
      assert i in list.freeList <==> i in after.freeList || i == ix;
      assert ix !in after.freeList by {
        forall j | 0 <= j < |after.freeList| ensures after.freeList[j] != ix {
          assert after.freeList[j] == list.freeList[j];
        }
      }
    }
  }

  lemma PushKeepsInv(s: State, kind: Kind, size: Extent, format: Format)
    requires Inv(s)
    ensures s.storage.At(kind).freeList != [] ==> NextIndex(s.storage.At(kind)) < |s.storage.At(kind).textures|
    ensures Inv(AfterPush(s, kind, size, format))
    ensures AfterPush(s, kind, size, format).storage.Get(FreshTexture(s, kind, size, format).id)
            == Some(FreshTexture(s, kind, size, format))
  {
    hide Storage.Get, ListOk, KeysIn, TextureOk, TileOk, ContentOk, Pushed;
    PushSlot(s, kind, size, format);
    var t := FreshTexture(s, kind, size, format);
    var s' := AfterPush(s, kind, size, format);
    PushKeepsTextures(s, t, s');
    PushKeepsTiles(s, t, s');
  }

  lemma PushKeepsTextures(s: State, t: Texture, s': State)
    requires Textures(s) && Handles(s) && Tiles(s) && s.storage.Get(t.id) == None
    requires forall id :: s'.storage.Get(id) == if id == t.id then Some(t) else s.storage.Get(id)
    requires t.handle == s.created && t.generation == t.handle % GENERATIONS && t.liveKeys == 0
    requires t.allocator.live == map[]
    requires s'.tiles == s.tiles && s'.gpu == s.gpu[s.created := []] && s'.created == s.created + 1
    ensures Textures(s') && Handles(s')
  {
    hide Storage.Get;
    assert KeysIn(s.tiles, t.id) == {} by {
      forall k | k in s.tiles ensures s.tiles[k].textureId != t.id { assert TileOk(s, k); }
    }
    forall id ensures TextureOk(s', id) { assert TextureOk(s, id); }
    forall a, b | s'.storage.Get(a).Some? && s'.storage.Get(b).Some? &&
      s'.storage.Get(a).value.handle == s'.storage.Get(b).value.handle ensures a == b
    {
      assert TextureOk(s, a) && TextureOk(s, b);
    }
  }

  lemma PushKeepsTiles(s: State, t: Texture, s': State)
    requires Textures(s) && Tiles(s) && Contents(s) && PendingLive(s) && s.storage.Get(t.id) == None
    requires forall id :: s'.storage.Get(id) == if id == t.id then Some(t) else s.storage.Get(id)
    requires s'.tiles == s.tiles && s'.gpu == s.gpu[s.created := []] && s'.pending == s.pending
    requires s'.bytesOf == s.bytesOf
    ensures Tiles(s') && Contents(s') && PendingLive(s')
  {
    hide Storage.Get;
    forall k | k in s'.tiles ensures TileOk(s', k) { assert TileOk(s, k); }
    forall k | k in s'.tiles ensures ContentOk(s', k) {
      assert TileOk(s, k) && TextureOk(s, s.tiles[k].textureId) && ContentOk(s, k);
      SameProjection(s, s', k);
    }
  }

  /** A tile whose texture, pending uploads and recorded bytes are the same shows the same. */
  lemma SameProjection(s: State, s': State, k: Key)
    requires ContentOk(s, k) && k in s'.tiles && s'.tiles[k] == s.tiles[k]
    requires k in s'.bytesOf && s'.bytesOf[k] == s.bytesOf[k]
    requires var id := s.tiles[k].textureId;
             && s'.storage.Get(id).Some?
             && var t, t' := s.storage.Get(id).value, s'.storage.Get(id).value;
                && t'.id == t.id && t'.format == t.format && t'.handle == t.handle
                && t.handle in s'.gpu && s'.gpu[t.handle] == s.gpu[t.handle]
                && WritesFor(s'.pending, t.id, t.BytesPerPixel()) == WritesFor(s.pending, t.id, t.BytesPerPixel())
    ensures ContentOk(s', k)
  {
    hide Shows;
  }

  // ---- Inserting a tile ----

  function TileFor(t: Texture, a: Allocation, size: Extent): Tile {
    Tile(t.id, a.id, Rect(a.rect.x, a.rect.y, size.width, size.height))
  }

  function WithAllocation(t: Texture, a: Allocation, size: Extent): Texture {
    t.(allocator := Allocator(t.allocator.size, t.allocator.live[a.id := a.rect],
      t.allocator.log + [Allocated(a.id, size)]),
       liveKeys := t.liveKeys + 1)
  }

  ghost function AfterInsert(s: State, key: Key, t: Texture, a: Allocation, size: Extent, bytes: seq<Byte>): State
    requires t.id.index < |s.storage.At(t.id.kind).textures|
  {
    var tile := TileFor(t, a, size);
    s.(storage := s.storage.Put(t.id, Some(WithAllocation(t, a, size))),
       tiles := s.tiles[key := tile],
       pending := s.pending + [Upload(t.id, tile.bounds, Swizzled(bytes, t.format))],
       bytesOf := s.bytesOf[key := bytes])
  }

  /** An upload apart from a rectangle does not show in it. */
  lemma ApartUploadHidden(writes: seq<Write>, later: Write, w: Write)
    requires Shows(writes, w) && later.bounds.Apart(w.bounds)
    ensures Shows(writes + [later], w)
  {
  }

  lemma LastUploadShows(writes: seq<Write>, w: Write)
    ensures Shows(writes + [w], w)
  {
  }

  lemma ApartShrinks(a: Rect, b: Rect, outerA: Rect, outerB: Rect)
    requires a.Within(outerA) && b.Within(outerB) && outerA.Apart(outerB)
    ensures a.Apart(b)
  {
  }

  lemma PendingGrows(pending: seq<Upload>, u: Upload, id: TextureId, bytesPerPixel: nat)
    ensures WritesFor(pending + [u], id, bytesPerPixel) ==
            WritesFor(pending, id, bytesPerPixel) + if u.id == id then [Write(u.bounds, u.data, bytesPerPixel)] else []
  {
    assert (pending + [u])[..|pending|] == pending;
  }

  lemma InsertKeepsInv(s: State, key: Key, t: Texture, a: Allocation, size: Extent, bytes: seq<Byte>)
    requires Inv(s) && key !in s.tiles && s.storage.Get(t.id) == Some(t) && t.id.kind == key.kind
    requires AnswerOk(t.allocator, size, Some(a))
    ensures Inv(AfterInsert(s, key, t, a, size, bytes))
  {
    hide Texture.BytesPerPixel, Swizzled, TextureOk, TileOk, ContentOk, Handles, Injective;
    var s' := AfterInsert(s, key, t, a, size, bytes);
    InsertSlots(s, t, a, size, s');
    InsertKeepsTextures(s, key, t, a, size, s');
    InsertKeepsTiles(s, key, t, a, size, s');
    forall k | k in s'.tiles ensures ContentOk(s', k) {
      InsertedContent(s, key, t, a, size, bytes, k);
    }
  }

  lemma InsertSlots(s: State, t: Texture, a: Allocation, size: Extent, s': State)
    requires s.storage.Get(t.id) == Some(t) && s'.storage == s.storage.Put(t.id, Some(WithAllocation(t, a, size)))
    requires Lists(s) && Handles(s)
    ensures forall id ::
             s'.storage.Get(id) == if id == t.id then Some(WithAllocation(t, a, size)) else s.storage.Get(id)
    ensures Lists(s') && Handles(s')
  {
  }

  lemma InsertKeepsTextures(s: State, key: Key, t: Texture, a: Allocation, size: Extent, s': State)
    requires Textures(s) && key !in s.tiles && s.storage.Get(t.id) == Some(t) && AnswerOk(t.allocator, size, Some(a))
    requires forall id ::
             s'.storage.Get(id) == if id == t.id then Some(WithAllocation(t, a, size)) else s.storage.Get(id)
    requires s'.tiles == s.tiles[key := TileFor(t, a, size)] && s'.gpu == s.gpu && s'.created == s.created
    ensures Textures(s')
  {
    hide Storage.Get, KeysIn, TextureOk;
    forall id ensures TextureOk(s', id) {
      assert TextureOk(s, id);
      KeysInInsert(s.tiles, key, TileFor(t, a, size), id);
      if id == t.id {
        InsertKeepsTexture(s, key, t, a, size, s');
      } else {
        OtherTextureKept(s, s', id);
      }
    }
  }

  lemma KeysInInsert(tiles: map<Key, Tile>, key: Key, tile: Tile, id: TextureId)
    requires key !in tiles
    ensures KeysIn(tiles[key := tile], id) == KeysIn(tiles, id) + if tile.textureId == id then {key} else {}
    ensures key !in KeysIn(tiles, id)
  {
  }

  lemma InsertKeepsTexture(s: State, key: Key, t: Texture, a: Allocation, size: Extent, s': State)
    requires TextureOk(s, t.id) && s.storage.Get(t.id) == Some(t) && AnswerOk(t.allocator, size, Some(a))
    requires s'.storage.Get(t.id) == Some(WithAllocation(t, a, size)) && s'.gpu == s.gpu && s'.created == s.created
    requires key !in KeysIn(s.tiles, t.id) && KeysIn(s'.tiles, t.id) == KeysIn(s.tiles, t.id) + {key}
    ensures TextureOk(s', t.id)
  {
    hide Storage.Get, KeysIn, LiveApart, Rect.Apart;
    LiveInsert(t.allocator.live, a.id, a.rect);
  }

  lemma LiveInsert(live: map<nat, Rect>, id: nat, r: Rect)
    requires LiveApart(live) && id !in live && forall other | other in live :: r.Apart(live[other])
    ensures LiveApart(live[id := r]) && |live[id := r]| == |live| + 1
  {
  }

  lemma OtherTextureKept(s: State, s': State, id: TextureId)
    requires TextureOk(s, id) && s'.storage.Get(id) == s.storage.Get(id) && KeysIn(s'.tiles, id) == KeysIn(s.tiles, id)
    requires s.created <= s'.created && forall h | h in s.gpu :: h in s'.gpu
    ensures TextureOk(s', id)
  {
    hide Storage.Get, KeysIn;
  }

  lemma InsertKeepsTiles(s: State, key: Key, t: Texture, a: Allocation, size: Extent, s': State)
    requires Tiles(s) && Injective(s) && key !in s.tiles && s.storage.Get(t.id) == Some(t) && t.id.kind == key.kind
    requires AnswerOk(t.allocator, size, Some(a))
    requires forall id ::
             s'.storage.Get(id) == if id == t.id then Some(WithAllocation(t, a, size)) else s.storage.Get(id)
    requires s'.tiles == s.tiles[key := TileFor(t, a, size)]
    ensures Tiles(s') && Injective(s')
  {
    hide Storage.Get;
    forall k | k in s'.tiles ensures TileOk(s', k) {
      if k != key { assert TileOk(s, k); }
    }
    forall x | x in s.tiles ensures s.tiles[x].textureId == t.id ==> s.tiles[x].tileId != a.id {
      assert TileOk(s, x);
    }
  }

  lemma InsertedContent(s: State, key: Key, t: Texture, a: Allocation, size: Extent, bytes: seq<Byte>, k: Key)
    requires Inv(s) && key !in s.tiles && s.storage.Get(t.id) == Some(t)
    requires AnswerOk(t.allocator, size, Some(a)) && (k == key || k in s.tiles)
    ensures ContentOk(AfterInsert(s, key, t, a, size, bytes), k)
  {
    hide Swizzled, WritesFor, Shows, Texture.BytesPerPixel;
    var s' := AfterInsert(s, key, t, a, size, bytes);
    var t' := WithAllocation(t, a, size);
    var u := Upload(t.id, TileFor(t, a, size).bounds, Swizzled(bytes, t.format));
    var w := Write(u.bounds, u.data, t.BytesPerPixel());
    assert t'.BytesPerPixel() == t.BytesPerPixel() by { TextureFormatOnly(t, t'); }
    var id := s'.tiles[k].textureId;
    GetPut(s.storage, t.id, Some(t'), id);
    assert TextureOk(s, t.id) && TextureOk(s, id);
    PendingGrows(s.pending, u, t.id, t.BytesPerPixel());
    assert Projected(s', t') == Projected(s, t) + [w];
    if k == key {
      LastUploadShows(Projected(s, t), w);
    } else {
      assert TileOk(s, k) && ContentOk(s, k);
      if id == t.id {
        ApartShrinks(u.bounds, s.tiles[k].bounds, a.rect, t.allocator.live[s.tiles[k].tileId]);
        ApartUploadHidden(Projected(s, t), w, Expected(s, k));
        assert Expected(s', k) == Expected(s, k);
      } else {
        PendingGrows(s.pending, u, id, s.storage.Get(id).value.BytesPerPixel());
        SameProjection(s, s', k);
      }
    }
  }

  lemma TextureFormatOnly(t: Texture, t': Texture)
    requires t'.format == t.format
    ensures t'.BytesPerPixel() == t.BytesPerPixel()
  {
  }

  // ---- Removing a tile ----

  function WithoutAllocation(t: Texture, id: nat): Texture
    requires t.liveKeys > 0
  {
    t.(allocator := Allocator(t.allocator.size, t.allocator.live - {id}, t.allocator.log + [Deallocated(id)]),
       liveKeys := t.liveKeys - 1)
  }

  /** The count of a texture that still holds a tile is positive. */
  lemma CountIsPositive(s: State, key: Key)
    requires Textures(s) && key in s.tiles
    ensures var slot := s.storage.Get(s.tiles[key].textureId); slot.Some? ==> slot.value.liveKeys > 0
  {
    assert TextureOk(s, s.tiles[key].textureId);
    assert key in KeysIn(s.tiles, s.tiles[key].textureId);
  }

  function AfterRemove(s: State, key: Key): State
    requires key in s.tiles && s.storage.Get(s.tiles[key].textureId).Some?
    requires s.storage.Get(s.tiles[key].textureId).value.liveKeys > 0
  {
    var tile := s.tiles[key];
    var id := tile.textureId;
    var t := WithoutAllocation(s.storage.Get(id).value, tile.tileId);
    var fewer := s.(tiles := s.tiles - {key}, bytesOf := s.bytesOf - {key});
    if t.liveKeys == 0 then
      var emptied := s.storage.Put(id, None);
      var list := emptied.At(id.kind);
      fewer.(storage := emptied.With(id.kind, list.(freeList := list.freeList + [id.index])),
             pending := Without(s.pending, id))
    else
      fewer.(storage := s.storage.Put(id, Some(t)))
  }

  lemma RemoveKeepsInv(s: State, key: Key)
    requires Inv(s) && key in s.tiles
    ensures s.storage.Get(s.tiles[key].textureId).Some?
    ensures s.storage.Get(s.tiles[key].textureId).value.liveKeys > 0
    ensures Inv(AfterRemove(s, key))
  {
    hide Storage.Get, ListOk, KeysIn, TextureOk, ContentOk, Without, WithoutAllocation;
    assert TileOk(s, key);
    CountIsPositive(s, key);
    var s' := AfterRemove(s, key);
    var id := s.tiles[key].textureId;
    var t := s.storage.Get(id).value;
    var slot := RemoveSlots(s, key);
    RemoveKeepsTextures(s, key, t, slot, s');
    RemoveKeepsTiles(s, key, t, slot, s');
    RemoveKeepsContents(s, key, t, slot, s');
  }

  lemma RemoveSlots(s: State, key: Key) returns (slot: Option<Texture>)
    requires Lists(s) && key in s.tiles && s.storage.Get(s.tiles[key].textureId).Some?
    requires s.storage.Get(s.tiles[key].textureId).value.liveKeys > 0
    ensures var id := s.tiles[key].textureId;
            var t := WithoutAllocation(s.storage.Get(id).value, s.tiles[key].tileId);
            && slot == (if t.liveKeys == 0 then None else Some(t))
            && (forall other ::
                  AfterRemove(s, key).storage.Get(other) == if other == id then slot else s.storage.Get(other))
            && Lists(AfterRemove(s, key))
  {
    var id := s.tiles[key].textureId;
    var t := WithoutAllocation(s.storage.Get(id).value, s.tiles[key].tileId);
    slot := if t.liveKeys == 0 then None else Some(t);
    forall other ensures AfterRemove(s, key).storage.Get(other) == if other == id then slot else s.storage.Get(other) {
      GetPut(s.storage, id, slot, other);
    }
    var list, list' := s.storage.At(id.kind), AfterRemove(s, key).storage.At(id.kind);
    assert ListOk(list);
    if slot == None {
      assert list'.freeList == list.freeList + [id.index];
      forall i: nat ensures i in list'.freeList <==> i < |list'.textures| && list'.textures[i] == None {
        assert i in list.freeList <==> i < |list.textures| && list.textures[i] == None;
      }
    }
  }

  lemma RemoveKeepsTextures(s: State, key: Key, t: Texture, slot: Option<Texture>, s': State)
    requires Textures(s) && Handles(s) && Tiles(s) && key in s.tiles && t.liveKeys > 0
    requires var tile := s.tiles[key];
             && s.storage.Get(tile.textureId) == Some(t)
             && slot in {None, Some(WithoutAllocation(t, tile.tileId))}
             && forall other :: s'.storage.Get(other) == if other == tile.textureId then slot else s.storage.Get(other)
    requires s'.tiles == s.tiles - {key} && s'.gpu == s.gpu && s'.created == s.created
    ensures Textures(s') && Handles(s')
  {
    hide Storage.Get, TextureOk, KeysIn;
    forall id ensures TextureOk(s', id) {
      assert TextureOk(s, id) && TileOk(s, key);
      KeysInRemove(s.tiles, key, id);
      if id == s.tiles[key].textureId {
        RemoveKeepsTexture(s, key, t, slot, s');
      } else {
        OtherTextureKept(s, s', id);
      }
    }
    forall a, b | s'.storage.Get(a).Some? && s'.storage.Get(b).Some? &&
      s'.storage.Get(a).value.handle == s'.storage.Get(b).value.handle ensures a == b
    {
      assert s.storage.Get(a).Some? && s.storage.Get(b).Some?;
    }
  }

  lemma KeysInRemove(tiles: map<Key, Tile>, key: Key, id: TextureId)
    requires key in tiles
    ensures KeysIn(tiles - {key}, id) == KeysIn(tiles, id) - {key}
    ensures key in KeysIn(tiles, id) <==> tiles[key].textureId == id
  {
  }

  lemma RemoveKeepsTexture(s: State, key: Key, t: Texture, slot: Option<Texture>, s': State)
    requires key in s.tiles && TileOk(s, key) && TextureOk(s, s.tiles[key].textureId) && t.liveKeys > 0
    requires var tile := s.tiles[key];
             && s.storage.Get(tile.textureId) == Some(t)
             && slot in {None, Some(WithoutAllocation(t, tile.tileId))}
             && s'.storage.Get(tile.textureId) == slot
             && key in KeysIn(s.tiles, tile.textureId)
             && KeysIn(s'.tiles, tile.textureId) == KeysIn(s.tiles, tile.textureId) - {key}
    requires s'.gpu == s.gpu && s'.created == s.created
    ensures TextureOk(s', s.tiles[key].textureId)
  {
  }

  /** A texture whose last key goes has no other tile in it. */
  lemma OtherTilesSurvive(s: State, key: Key, other: Key)
    requires Textures(s) && Tiles(s) && Injective(s) && key in s.tiles && other in s.tiles && other != key
    requires s.storage.Get(s.tiles[key].textureId).Some? && s.tiles[other].textureId == s.tiles[key].textureId
    ensures s.storage.Get(s.tiles[key].textureId).value.liveKeys > 1
    ensures s.tiles[other].tileId != s.tiles[key].tileId
  {
    var id := s.tiles[key].textureId;
    assert TextureOk(s, id);
    assert {key, other} <= KeysIn(s.tiles, id);
    SubsetSize({key, other}, KeysIn(s.tiles, id));
  }

  lemma RemoveKeepsTiles(s: State, key: Key, t: Texture, slot: Option<Texture>, s': State)
    requires Textures(s) && Tiles(s) && Injective(s) && PendingLive(s) && key in s.tiles && t.liveKeys > 0
    requires var tile := s.tiles[key];
             var t' := WithoutAllocation(t, tile.tileId);
             && s.storage.Get(tile.textureId) == Some(t)
             && slot == (if t'.liveKeys == 0 then None else Some(t'))
             && (forall other ::
                   s'.storage.Get(other) == if other == tile.textureId then slot else s.storage.Get(other))
             && s'.pending == if slot == None then Without(s.pending, tile.textureId) else s.pending
    requires s'.tiles == s.tiles - {key}
    ensures Tiles(s') && Injective(s') && PendingLive(s')
  {
    hide Storage.Get, TextureOk;
    forall k | k in s'.tiles ensures TileOk(s', k) {
      assert TileOk(s, k);
      if s.tiles[k].textureId == s.tiles[key].textureId {
        OtherTilesSurvive(s, key, k);
      }
    }
    WithoutMembers(s.pending, s.tiles[key].textureId);
  }

  lemma RemoveKeepsContents(s: State, key: Key, t: Texture, slot: Option<Texture>, s': State)
    requires Textures(s) && Tiles(s) && Injective(s) && Contents(s) && key in s.tiles && t.liveKeys > 0
    requires var tile := s.tiles[key];
             var t' := WithoutAllocation(t, tile.tileId);
             && s.storage.Get(tile.textureId) == Some(t)
             && slot == (if t'.liveKeys == 0 then None else Some(t'))
             && (forall other ::
                   s'.storage.Get(other) == if other == tile.textureId then slot else s.storage.Get(other))
             && s'.pending == if slot == None then Without(s.pending, tile.textureId) else s.pending
    requires s'.tiles == s.tiles - {key} && s'.bytesOf == s.bytesOf - {key} && s'.gpu == s.gpu
    ensures Contents(s')
  {
    hide Storage.Get, Shows, WritesFor, Without;
    var gone := s.tiles[key].textureId;
    forall k | k in s'.tiles ensures ContentOk(s', k) {
      var id := s.tiles[k].textureId;
      assert ContentOk(s, k) && TextureOk(s, id);
      if id == gone {
        OtherTilesSurvive(s, key, k);
      } else {
        WithoutKeepsOthers(s.pending, gone, id, s.storage.Get(id).value.BytesPerPixel());
      }
      SameProjection(s, s', k);
    }
  }

  // ---- Flushing ----

  /** What flushing leaves on the GPU: uploads in queue order, skipping missing textures. */
  function FlushedGpu(storage: Storage, pending: seq<Upload>, gpu: map<nat, seq<Write>>): map<nat, seq<Write>>
  {
    if pending == [] then gpu
    else
      var u := pending[|pending| - 1];
      var earlier := FlushedGpu(storage, pending[..|pending| - 1], gpu);
      match storage.Get(u.id)
      case None => earlier
      case Some(t) =>
        var before := if t.handle in earlier then earlier[t.handle] else [];
        earlier[t.handle := before + [Write(u.bounds, u.data, t.BytesPerPixel())]]
  }

  lemma {:induction false} FlushWrites(s: State, pending: seq<Upload>, id: TextureId)
    requires Textures(s) && Handles(s) && s.storage.Get(id).Some?
    ensures var t := s.storage.Get(id).value;
            var gpu := FlushedGpu(s.storage, pending, s.gpu);
            && t.handle in s.gpu && t.handle in gpu
            && gpu[t.handle] == s.gpu[t.handle] + WritesFor(pending, id, t.BytesPerPixel())
    decreases |pending|
  {
    hide Storage.Get, KeysIn;
    assert TextureOk(s, id);
    if pending != [] {
      FlushWrites(s, pending[..|pending| - 1], id);
    }
  }

  lemma {:induction false} FlushKeepsHandles(storage: Storage, pending: seq<Upload>, gpu: map<nat, seq<Write>>)
    ensures forall h | h in gpu :: h in FlushedGpu(storage, pending, gpu)
  {
    if pending != [] {
      FlushKeepsHandles(storage, pending[..|pending| - 1], gpu);
    }
  }

  function AfterFlush(s: State): State {
    s.(gpu := FlushedGpu(s.storage, s.pending, s.gpu), pending := [])
  }

  lemma FlushKeepsInv(s: State)
    requires Inv(s)
    ensures Inv(AfterFlush(s))
    ensures forall k | k in s.tiles :: Shown(AfterFlush(s), k)
  {
    hide Storage.Get, KeysIn, Shows, FlushedGpu, WritesFor;
    var s' := AfterFlush(s);
    FlushKeepsHandles(s.storage, s.pending, s.gpu);
    forall id ensures TextureOk(s', id) { assert TextureOk(s, id); OtherTextureKept(s, s', id); }
    forall k | k in s.tiles ensures TileOk(s', k) && ContentOk(s', k) && Shown(s', k) {
      assert TileOk(s, k) && ContentOk(s, k);
      var t := s.storage.Get(s.tiles[k].textureId).value;
      assert TextureOk(s, s.tiles[k].textureId);
      FlushWrites(s, s.pending, s.tiles[k].textureId);
      NoWritesFor([], t.id, t.BytesPerPixel());
      assert Projected(s', t) == s'.gpu[t.handle] == Projected(s, t);
      assert Expected(s', k) == Expected(s, k);
    }
  }

  /** The tile of `key` holds exactly that key's bytes, on the GPU, now. */
  ghost predicate Shown(s: State, key: Key) {
    && key in s.tiles && key in s.bytesOf
    && s.storage.Get(s.tiles[key].textureId).Some?
    && var t := s.storage.Get(s.tiles[key].textureId).value;
       t.handle in s.gpu && Shows(s.gpu[t.handle], Expected(s, key))
  }

  lemma EmptyInv(s: State)
    requires s.storage == EMPTY_STORAGE && s.tiles == map[] && s.pending == []
    ensures Inv(s)
  {
  }
}
