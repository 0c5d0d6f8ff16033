/** Whole runs of the atlas and the renderer: any interleaving of inserts, removals, clears,
    device losses and frames, seen by a client that knows only its requests and the replies. */
module AtlasRun {
  import opened Basics
  import opened AtlasState
  import opened AtlasSteps
  import opened Atlas

  datatype Request =
    | Insert(key: Key, build: Build)
    | Remove(key: Key)
    | Clear
    | LoseDevice(newFormat: Format)
    | Draw(batches: seq<Batch>)

  /** A frame shows which texture each batch was bound to, and what was in the textures then. */
  datatype Reply =
    | Tiled(result: Result<Option<Tile>>)
    | Drawn(bound: seq<Option<nat>>, contents: map<nat, seq<Write>>)
    | Done

  // ---- What the requests do to the state ----

  /** The last slot whose texture accepts a tile of this size. */
  function LastAccepting(policy: Policy, slots: seq<Option<Texture>>, size: Extent): (r: Option<nat>)
    ensures r.Some? ==>
              && r.value < |slots| && slots[r.value].Some? && policy(slots[r.value].value.allocator, size).Some?
  {
    if slots == [] then None
    else
      var last := slots[|slots| - 1];
      if last.Some? && policy(last.value.allocator, size).Some? then Some(|slots| - 1)
      else LastAccepting(policy, slots[..|slots| - 1], size)
  }

  /** Inserting a missing key: into the last texture that accepts it, else into a new one, and
      if that refuses too, nothing but the new texture remains. */
  ghost function AfterAttempt(c: AtlasConfig, s: State, key: Key, size: Extent, bytes: seq<Byte>): (s': State)
    requires PolicyOk(c.policy) && Inv(s) && key !in s.tiles
    ensures Inv(s')
  {
    var list := s.storage.At(key.kind).textures;
    match LastAccepting(c.policy, list, size)
    case Some(i) => AfterPlacing(c, s, key, TextureId(i, key.kind), size, bytes)
    case None =>
      var room, format := TextureSize(size, c.initialSize, c.maxTextureSize), FormatFor(key.kind, c.colorFormat);
      PushKeepsInv(s, key.kind, room, format);
      var base := AfterPush(s, key.kind, room, format);
      var t := FreshTexture(s, key.kind, room, format);
      if c.policy(t.allocator, size).Some? then AfterPlacing(c, base, key, t.id, size, bytes) else base
  }

  ghost function AfterPlacing(
    c: AtlasConfig, s: State, key: Key, id: TextureId, size: Extent, bytes: seq<Byte>): (s': State)
    requires PolicyOk(c.policy) && Inv(s) && key !in s.tiles && id.kind == key.kind
    requires s.storage.Get(id).Some? && c.policy(s.storage.Get(id).value.allocator, size).Some?
    ensures Inv(s')
  {
    var t := s.storage.Get(id).value;
    var a := c.policy(t.allocator, size).value;
    SlotId(s, id);
    InsertKeepsInv(s, key, t, a, size, bytes);
    AfterInsert(s, key, t, a, size, bytes)
  }

  ghost function AfterRequest(c: AtlasConfig, s: State, request: Request): (s': State)
    requires PolicyOk(c.policy) && Inv(s)
    ensures Inv(s')
  {
    match request
    case Insert(key, build) =>
      if key !in s.tiles && build.Built? then AfterAttempt(c, s, key, build.size, build.bytes) else s
    case Remove(key) =>
      if key !in s.tiles then s
      else
        RemoveKeepsInv(s, key);
        AfterRemove(s, key)
    case Clear => Emptied(s)
    case LoseDevice(_) => Emptied(s)
    case Draw(_) =>
      FlushKeepsInv(s);
      AfterFlush(s)
  }

  /** No texture, tile or upload is left; what was created stays counted. */
  ghost function Emptied(s: State): (s': State)
    ensures Inv(s')
  {
    var s' := EMPTY_STATE.(gpu := s.gpu, created := s.created);
    EmptyInv(s');
    s'
  }

  function ConfigAfter(c: AtlasConfig, requests: seq<Request>): (c': AtlasConfig)
    ensures c'.policy == c.policy
  {
    if requests == [] then c else Reconfigured(ConfigAfter(c, requests[..|requests| - 1]), requests[|requests| - 1])
  }

  function Reconfigured(c: AtlasConfig, request: Request): AtlasConfig {
    if request.LoseDevice? then c.(colorFormat := request.newFormat) else c
  }

  /** The state of the atlas after a sequence of requests, from an empty one. */
  ghost function StateAfter(c: AtlasConfig, requests: seq<Request>): (s: State)
    requires PolicyOk(c.policy)
    ensures Inv(s)
  {
    if requests == [] then Emptied(EMPTY_STATE)
    else
      var n := |requests| - 1;
      AfterRequest(ConfigAfter(c, requests[..n]), StateAfter(c, requests[..n]), requests[n])
  }

  /** Glyph masks are in one-byte textures, images in textures of the current colour format. */
  ghost predicate FormatsOk(s: State, color: Format) {
    forall id | s.storage.Get(id).Some? ::
      s.storage.Get(id).value.format == if id.kind.Monochrome? then R8Unorm else color
  }

  lemma PlacingFormats(
    c: AtlasConfig, s: State, key: Key, id: TextureId, size: Extent, bytes: seq<Byte>, color: Format)
    requires PolicyOk(c.policy) && Inv(s) && key !in s.tiles && id.kind == key.kind && FormatsOk(s, color)
    requires s.storage.Get(id).Some? && c.policy(s.storage.Get(id).value.allocator, size).Some?
    ensures FormatsOk(AfterPlacing(c, s, key, id, size, bytes), color)
  {
    hide Inv, PolicyOk;
    SlotId(s, id);
    var t := s.storage.Get(id).value;
    var a := c.policy(t.allocator, size).value;
    var s' := AfterPlacing(c, s, key, id, size, bytes);
    forall other | s'.storage.Get(other).Some?
      ensures s'.storage.Get(other).value.format == if other.kind.Monochrome? then R8Unorm else color
    {
      GetPut(s.storage, id, Some(WithAllocation(t, a, size)), other);
    }
  }

  lemma AttemptFormats(c: AtlasConfig, s: State, key: Key, size: Extent, bytes: seq<Byte>)
    requires PolicyOk(c.policy) && Inv(s) && key !in s.tiles && FormatsOk(s, c.colorFormat)
    ensures FormatsOk(AfterAttempt(c, s, key, size, bytes), c.colorFormat)
  {
    hide PolicyOk, AfterPlacing, FormatsOk;
    var last := LastAccepting(c.policy, s.storage.At(key.kind).textures, size);
    if last.Some? {
      PlacingFormats(c, s, key, TextureId(last.value, key.kind), size, bytes, c.colorFormat);
    } else {
      var room, format := TextureSize(size, c.initialSize, c.maxTextureSize), FormatFor(key.kind, c.colorFormat);
      PushKeepsInv(s, key.kind, room, format);
      PushFormats(s, key.kind, room, c.colorFormat);
      var base, t := AfterPush(s, key.kind, room, format), FreshTexture(s, key.kind, room, format);
      if c.policy(t.allocator, size).Some? {
        PlacingFormats(c, base, key, t.id, size, bytes, c.colorFormat);
      }
    }
  }

  lemma PushFormats(s: State, kind: Kind, size: Extent, color: Format)
    requires Inv(s) && FormatsOk(s, color)
    ensures s.storage.At(kind).freeList != [] ==> NextIndex(s.storage.At(kind)) < |s.storage.At(kind).textures|
    ensures FormatsOk(AfterPush(s, kind, size, FormatFor(kind, color)), color)
  {
    assert ListOk(s.storage.At(kind));
    hide Inv, ListOk, Storage.Get, AfterPush;
    PushSlot(s, kind, size, FormatFor(kind, color));
  }

  lemma RemoveFormats(s: State, key: Key, color: Format)
    requires Inv(s) && key in s.tiles && FormatsOk(s, color)
    ensures s.storage.Get(s.tiles[key].textureId).Some?
    ensures s.storage.Get(s.tiles[key].textureId).value.liveKeys > 0
    ensures FormatsOk(AfterRemove(s, key), color)
  {
    assert Lists(s);
    RemoveKeepsInv(s, key);
    hide Inv, Lists, Storage.Get, AfterRemove;
    var slot := RemoveSlots(s, key);
  }

  /** In the state after any requests every texture has the format of its kind: one byte a pixel
      for glyph masks, and for images the colour format that the device has by then. */
  lemma {:induction false} FormatsAfter(c: AtlasConfig, requests: seq<Request>)
    requires PolicyOk(c.policy)
    ensures FormatsOk(StateAfter(c, requests), ConfigAfter(c, requests).colorFormat)
  {
    hide PolicyOk, Inv, AfterAttempt, AfterRemove, AfterFlush;
    if requests != [] {
      var n := |requests| - 1;
      FormatsAfter(c, requests[..n]);
      var before, s := ConfigAfter(c, requests[..n]), StateAfter(c, requests[..n]);
      hide StateAfter, ConfigAfter;
      RequestFormats(before, s, requests[n]);
      OneMoreRequest(c, requests, n);
      assert requests[..n + 1] == requests;
    }
  }

  lemma RequestFormats(c: AtlasConfig, s: State, request: Request)
    requires PolicyOk(c.policy) && Inv(s) && FormatsOk(s, c.colorFormat)
    ensures FormatsOk(AfterRequest(c, s, request), Reconfigured(c, request).colorFormat)
  {
    hide PolicyOk, Inv, AfterAttempt, AfterRemove;
    match request {
      case Insert(key, build) =>
        if key !in s.tiles && build.Built? { AttemptFormats(c, s, key, build.size, build.bytes); }
      case Remove(key) =>
        if key in s.tiles { RemoveFormats(s, key, c.colorFormat); }
      case _ =>
    }
  }

  /** What a client keeps for a key: the tile it was given and the bytes it passed in. */
  datatype Holding = Holding(tile: Tile, bytes: seq<Byte>)

  /** What the client holds after a history of requests and replies. */
  function Held(requests: seq<Request>, replies: seq<Reply>): map<Key, Holding>
    requires |requests| == |replies|
  {
    if requests == [] then map[]
    else
      var n := |requests| - 1;
      Updated(Held(requests[..n], replies[..n]), requests[n], replies[n])
  }

  function Updated(held: map<Key, Holding>, request: Request, reply: Reply): map<Key, Holding> {
    match request
    case Insert(key, build) =>
      if key !in held && build.Built? && reply.Tiled? && reply.result.Ok? && reply.result.value.Some?
      then held[key := Holding(reply.result.value.value, build.bytes)] else held
    case Remove(key) => held - {key}
    case Clear => map[]
    case LoseDevice(_) => map[]
    case Draw(_) => held
  }

  /** The state agrees with the client's record, tile by tile and byte by byte. */
  ghost predicate Agrees(s: State, held: map<Key, Holding>) {
    && held.Keys == s.tiles.Keys && held.Keys <= s.bytesOf.Keys
    && forall k | k in held :: held[k] == Holding(s.tiles[k], s.bytesOf[k])
  }

  ghost predicate TiledOk(held: map<Key, Holding>, key: Key, build: Build, r: Result<Option<Tile>>) {
    if key in held then r == Ok(Some(held[key].tile))
    else match build
      case Failed => r == Err
      case Nothing => r == Ok(None)
      case Built(size, _) =>
        r.Ok? ==>
          && r.value.Some? && r.value.value.textureId.kind == key.kind
          && r.value.value.bounds.width == size.width && r.value.value.bounds.height == size.height
  }

  /** A frame binds exactly the live textures of its batches, each as it is now, and in every
      tile the client holds there the bound texture shows the bytes the client passed in. */
  ghost predicate DrawnOk(s: State, held: map<Key, Holding>, batches: seq<Batch>, bound: seq<Option<nat>>) {
    && |bound| == |batches|
    && (forall i :: 0 <= i < |batches| ==> (bound[i].Some? <==> Drawable(s, batches[i])))
    && (forall i :: 0 <= i < |batches| && bound[i].Some? ==>
          bound[i].value % GENERATIONS == s.storage.Get(batches[i].textureId).value.handle % GENERATIONS)
    && (s.created <= GENERATIONS ==>
          && (forall i :: 0 <= i < |batches| && bound[i].Some? ==>
                bound[i].value == s.storage.Get(batches[i].textureId).value.handle)
          && (forall i, k | 0 <= i < |batches| && k in held && Samples(batches[i], held[k]) ::
                ShowsHolding(s, held[k], bound[i])))
  }

  predicate Samples(batch: Batch, h: Holding) {
    batch.Sprites? && batch.count > 0 && batch.textureId == h.tile.textureId
  }

  ghost predicate Drawable(s: State, batch: Batch) {
    batch.Sprites? && batch.count > 0 && s.storage.Get(batch.textureId).Some?
  }

  /** In every pixel of the holding's tile the texture has the client's bytes of that pixel. */
  ghost predicate ShowsHolding(s: State, h: Holding, bound: Option<nat>) {
    && bound.Some? && bound.value in s.gpu && s.storage.Get(h.tile.textureId).Some?
    && var format := s.storage.Get(h.tile.textureId).value.format;
       forall px, py | InTile(h.tile, px, py) && HasPixel(h, format, px, py) ::
         Texel(s.gpu[bound.value], px, py) == Some(PixelOf(h, format, px, py))
  }

  predicate InTile(tile: Tile, px: int, py: int) {
    && tile.bounds.x <= px < tile.bounds.x + tile.bounds.width
    && tile.bounds.y <= py < tile.bounds.y + tile.bounds.height
  }

  /** Where the bytes of a pixel start in what the client passed in: row by row, a byte for each
      pixel of a glyph mask and four for each pixel of a colour image. */
  function PixelStart(h: Holding, format: Format, px: int, py: int): int {
    (if format == R8Unorm then 1 else 4) * (h.tile.bounds.width * (py - h.tile.bounds.y) + (px - h.tile.bounds.x))
  }

  predicate HasPixel(h: Holding, format: Format, px: int, py: int) {
    0 <= PixelStart(h, format, px, py) <= |h.bytes| - if format == R8Unorm then 1 else 4
  }

  /** The client's bytes of a pixel, with red and blue exchanged for an RGBA texture. */
  function PixelOf(h: Holding, format: Format, px: int, py: int): seq<Byte>
    requires HasPixel(h, format, px, py)
  {
    var at := PixelStart(h, format, px, py);
    match format
    case R8Unorm => [h.bytes[at]]
    case Rgba8Unorm => [h.bytes[at + 2], h.bytes[at + 1], h.bytes[at], h.bytes[at + 3]]
    case _ => [h.bytes[at], h.bytes[at + 1], h.bytes[at + 2], h.bytes[at + 3]]
  }

  /** What an upload of a holding puts at a pixel is the client's bytes of that pixel. */
  lemma TexelIsPixel(h: Holding, t: Texture, px: int, py: int)
    requires InTile(h.tile, px, py) && HasPixel(h, t.format, px, py)
    ensures TexelAt(Write(h.tile.bounds, Swizzled(h.bytes, t.format), t.BytesPerPixel()), px, py) ==
            PixelOf(h, t.format, px, py)
  {
    var k := h.tile.bounds.width * (py - h.tile.bounds.y) + (px - h.tile.bounds.x);
    SwizzledPixels(h.bytes, t.format);
    var data := Swizzled(h.bytes, t.format);
    PixelBytes(h, t, px, py, k, data);
  }

  lemma PixelBytes(h: Holding, t: Texture, px: int, py: int, k: int, data: seq<Byte>)
    requires InTile(h.tile, px, py) && HasPixel(h, t.format, px, py) && |data| == |h.bytes|
    requires k == h.tile.bounds.width * (py - h.tile.bounds.y) + (px - h.tile.bounds.x)
    requires t.format != Rgba8Unorm ==> data == h.bytes
    requires t.format == Rgba8Unorm ==>
               forall at: nat :: at % 4 == 0 && at + 4 <= |data| ==> RedBlueSwapped(h.bytes, data, at)
    ensures TexelAt(Write(h.tile.bounds, data, t.BytesPerPixel()), px, py) == PixelOf(h, t.format, px, py)
  {
    var at, b := PixelStart(h, t.format, px, py), t.BytesPerPixel();
    assert at == b * k;
    var texel := TexelAt(Write(h.tile.bounds, data, b), px, py);
    assert texel == data[at..at + b];
    hide TexelAt, HasPixel, PixelStart, InTile;
    if t.format == Rgba8Unorm {
      assert at % 4 == 0;
      assert RedBlueSwapped(h.bytes, data, at);
    }
  }

  ghost predicate ReplyOk(s: State, held: map<Key, Holding>, request: Request, reply: Reply) {
    match request
    case Insert(key, build) => reply.Tiled? && TiledOk(held, key, build, reply.result)
    case Draw(batches) => reply.Drawn? && reply.contents == s.gpu && DrawnOk(s, held, batches, reply.bound)
    case _ => reply == Done
  }

  lemma InsertAgrees(
    c: AtlasConfig, s: State, s': State, held: map<Key, Holding>, key: Key, build: Build, r: Result<Option<Tile>>)
    requires Agrees(s, held) && key !in s.tiles && build.Built?
    requires Attempted(c, s, s', key, build.size, build.bytes, r)
    ensures Agrees(s', Updated(held, Insert(key, build), Tiled(r))) && TiledOk(held, key, build, r)
  {
    hide AfterInsert, AllRefuse, Grown, Agrees;
    if r.Ok? {
      var base, t, a :| PlacedIn(c, s, base, t, a, key.kind, build.size) &&
        r.value == Some(TileFor(t, a, build.size)) && s' == AfterInsert(base, key, t, a, build.size, build.bytes);
      SameTiles(c, s, base, t, a, key.kind, build.size);
      InsertedAgrees(s, base, held, key, t, a, build.size, build.bytes);
    } else {
      GrownTiles(c, s, s', key.kind, build.size);
      SameHoldings(s, s', held);
    }
  }

  lemma InsertedAgrees(
    s: State, base: State, held: map<Key, Holding>, key: Key, t: Texture, a: Allocation, size: Extent, bytes: seq<Byte>)
    requires Agrees(s, held) && key !in s.tiles && t.id.kind == key.kind
    requires base.tiles == s.tiles && base.bytesOf == s.bytesOf && base.storage.Get(t.id) == Some(t)
    ensures Agrees(AfterInsert(base, key, t, a, size, bytes), held[key := Holding(TileFor(t, a, size), bytes)])
    ensures key !in held
  {
    hide Swizzled, Storage.Put, WithAllocation, TileFor;
  }

  lemma SameHoldings(s: State, s': State, held: map<Key, Holding>)
    requires Agrees(s, held) && s'.tiles == s.tiles && s'.bytesOf == s.bytesOf
    ensures Agrees(s', held)
    ensures held.Keys == s.tiles.Keys
  {
  }

  lemma GrownTiles(c: AtlasConfig, s: State, base: State, kind: Kind, size: Extent)
    requires Grown(c, s, base, kind, size)
    ensures base.tiles == s.tiles && base.bytesOf == s.bytesOf
  {
    hide AllRefuse, Storage.Get, Pushed, FreshTexture;
  }

  /** Finding room, even with a new texture, touches no tile. */
  lemma SameTiles(c: AtlasConfig, s: State, base: State, t: Texture, a: Allocation, kind: Kind, size: Extent)
    requires PlacedIn(c, s, base, t, a, kind, size)
    ensures base.tiles == s.tiles && base.bytesOf == s.bytesOf
  {
    hide AllRefuse, Storage.Get, Grown;
    if base != s {
      GrownTiles(c, s, base, kind, size);
    }
  }

  /** A hit, a failed build and an empty build change nothing. */
  lemma InsertIdle(s: State, held: map<Key, Holding>, key: Key, build: Build, r: Result<Option<Tile>>)
    requires Agrees(s, held)
    requires if key in s.tiles then r == Ok(Some(s.tiles[key]))
             else (build == Failed && r == Err) || (build == Nothing && r == Ok(None))
    ensures Agrees(s, Updated(held, Insert(key, build), Tiled(r))) && TiledOk(held, key, build, r)
  {
  }

  lemma RemoveIdle(s: State, held: map<Key, Holding>, key: Key)
    requires Agrees(s, held) && key !in s.tiles
    ensures Agrees(s, held - {key})
  {
    assert held - {key} == held;
  }

  lemma NothingHeld(s: State)
    requires s.tiles == map[]
    ensures Agrees(s, map[])
  {
  }

  lemma FlushKeepsHoldings(s: State, held: map<Key, Holding>)
    requires Agrees(s, held)
    ensures Agrees(AfterFlush(s), held)
  {
  }

  lemma RemoveAgrees(s: State, held: map<Key, Holding>, key: Key)
    requires Agrees(s, held) && key in s.tiles && s.storage.Get(s.tiles[key].textureId).Some?
    requires s.storage.Get(s.tiles[key].textureId).value.liveKeys > 0
    ensures Agrees(AfterRemove(s, key), held - {key})
  {
    hide Storage.Get, Without, WithoutAllocation;
  }

  /** What `DrawFrame` promises about keys of the atlas, said about what the client holds. */
  lemma HoldingsDrawn(s: State, held: map<Key, Holding>, batches: seq<Batch>, bound: seq<Option<nat>>)
    requires Inv(s) && Agrees(s, held) && |bound| == |batches|
    requires forall i :: 0 <= i < |batches| ==> (bound[i].Some? <==> Drawable(s, batches[i]))
    requires forall i :: 0 <= i < |batches| && Drawable(s, batches[i]) ==>
               bound[i].value % GENERATIONS == s.storage.Get(batches[i].textureId).value.handle % GENERATIONS
    requires s.created <= GENERATIONS ==>
               forall i :: 0 <= i < |batches| && Drawable(s, batches[i]) ==>
                 bound[i].value == s.storage.Get(batches[i].textureId).value.handle
    requires s.created <= GENERATIONS ==>
               forall i, k | 0 <= i < |batches| && Drawable(s, batches[i]) && k in s.tiles &&
                 s.tiles[k].textureId == batches[i].textureId :: DrawsKey(s, k, bound[i].value)
    ensures DrawnOk(s, held, batches, bound)
  {
    hide Shows, ShowsHolding, Swizzled, Storage.Get;
    if s.created <= GENERATIONS {
      forall i, k | 0 <= i < |batches| && k in held && Samples(batches[i], held[k])
        ensures ShowsHolding(s, held[k], bound[i])
      {
        assert TileOk(s, k);
        assert Drawable(s, batches[i]);
        assert DrawsKey(s, k, bound[i].value);
        HoldingShown(s, held[k], k, bound[i].value);
      }
    }
  }

  lemma HoldingShown(s: State, h: Holding, k: Key, handle: nat)
    requires k in s.tiles && k in s.bytesOf && h == Holding(s.tiles[k], s.bytesOf[k]) && DrawsKey(s, k, handle)
    ensures ShowsHolding(s, h, Some(handle))
  {
    hide Swizzled, Storage.Get, Texel, TexelAt;
    var t := s.storage.Get(h.tile.textureId).value;
    forall px, py | InTile(h.tile, px, py) && HasPixel(h, t.format, px, py)
      ensures Texel(s.gpu[handle], px, py) == Some(PixelOf(h, t.format, px, py))
    {
      TexelIsPixel(h, t, px, py);
      assert h.tile.bounds.Inside(px, py);
    }
  }

  lemma LastAcceptingIs(policy: Policy, slots: seq<Option<Texture>>, size: Extent, i: nat)
    requires i < |slots| && slots[i].Some? && policy(slots[i].value.allocator, size).Some?
    requires AllRefuse(policy, slots[i + 1..], size)
    ensures LastAccepting(policy, slots, size) == Some(i)
  {
    if i < |slots| - 1 {
      var init := slots[..|slots| - 1];
      assert slots[i + 1..][|slots| - i - 2] == slots[|slots| - 1];
      assert init[i + 1..] == slots[i + 1..][..|init| - i - 1];
      LastAcceptingIs(policy, init, size, i);
    }
  }

  lemma NoneAccepting(policy: Policy, slots: seq<Option<Texture>>, size: Extent)
    requires AllRefuse(policy, slots, size)
    ensures LastAccepting(policy, slots, size) == None
  {
    if slots != [] {
      NoneAccepting(policy, slots[..|slots| - 1], size);
    }
  }

  /** The outcome that an insert may have is the one that the requests determine. */
  lemma AttemptedIs(
    c: AtlasConfig, s: State, s': State, key: Key, size: Extent, bytes: seq<Byte>, r: Result<Option<Tile>>)
    requires PolicyOk(c.policy) && Inv(s) && key !in s.tiles && Attempted(c, s, s', key, size, bytes, r)
    ensures s' == AfterAttempt(c, s, key, size, bytes)
  {
    hide Inv, PolicyOk, AfterPush, AfterInsert, Grown, AllRefuse;
    if r.Err? {
      GrownIs(c, s, s', key.kind, size);
    } else {
      var base, t, a :| PlacedIn(c, s, base, t, a, key.kind, size) &&
        r.value == Some(TileFor(t, a, size)) && s' == AfterInsert(base, key, t, a, size, bytes);
      if base == s {
        SlotId(s, t.id);
        LastAcceptingIs(c.policy, s.storage.At(key.kind).textures, size, t.id.index);
      } else {
        GrownIs(c, s, base, key.kind, size);
      }
    }
  }

  lemma GrownIs(c: AtlasConfig, s: State, base: State, kind: Kind, size: Extent)
    requires Inv(s) && Grown(c, s, base, kind, size)
    ensures LastAccepting(c.policy, s.storage.At(kind).textures, size) == None
    ensures var room, format := TextureSize(size, c.initialSize, c.maxTextureSize), FormatFor(kind, c.colorFormat);
            && (s.storage.At(kind).freeList != [] ==> NextIndex(s.storage.At(kind)) < |s.storage.At(kind).textures|)
            && base == AfterPush(s, kind, room, format)
            && var t := FreshTexture(s, kind, room, format);
               t.id == TextureId(NextIndex(s.storage.At(kind)), kind) && base.storage.Get(t.id) == Some(t)
  {
    hide Inv, AfterPush;
    var room, format := TextureSize(size, c.initialSize, c.maxTextureSize), FormatFor(kind, c.colorFormat);
    PushKeepsInv(s, kind, room, format);
    NoneAccepting(c.policy, s.storage.At(kind).textures, size);
  }

  /** One request, served by the atlas or the renderer. */
  method Serve(renderer: Renderer, request: Request, ghost held: map<Key, Holding>) returns (reply: Reply)
    requires renderer.Valid() && Agrees(renderer.atlas.View(), held)
    modifies renderer, renderer.atlas
    ensures renderer.Valid() && Agrees(renderer.atlas.View(), Updated(held, request, reply))
    ensures ReplyOk(renderer.atlas.View(), held, request, reply)
    ensures renderer.atlas.View() == AfterRequest(old(renderer.atlas.Config()), old(renderer.atlas.View()), request)
    ensures renderer.atlas.Config() == Reconfigured(old(renderer.atlas.Config()), request)
  {
    hide Inv, Agrees, TiledOk, DrawnOk, Attempted, AfterAttempt, AfterRemove, AfterFlush, DrawsKey;
    var atlas := renderer.atlas;
    ghost var before := atlas.View();
    match request {
      case Insert(key, build) =>
        var result := atlas.GetOrInsertWith(key, build);
        reply := Tiled(result);
        if key !in before.tiles && build.Built? {
          AttemptedIs(atlas.Config(), before, atlas.View(), key, build.size, build.bytes, result);
          InsertAgrees(atlas.Config(), before, atlas.View(), held, key, build, result);
        } else {
          InsertIdle(before, held, key, build, result);
        }
      case Remove(key) =>
        atlas.Remove(key);
        reply := Done;
        if key in before.tiles {
          RemoveAgrees(before, held, key);
        } else {
          RemoveIdle(before, held, key);
        }
      case Clear =>
        atlas.Clear();
        reply := Done;
        NothingHeld(atlas.View());
      case LoseDevice(format) =>
        atlas.HandleDeviceLost(format);
        reply := Done;
        NothingHeld(atlas.View());
      case Draw(batches) =>
        var bound := renderer.DrawFrame(batches);
        reply := Drawn(bound, atlas.gpu);
        FlushKeepsHoldings(before, held);
        HoldingsDrawn(atlas.View(), held, batches, bound);
    }
  }

  /** Every interleaving of inserts, removals, clears, device losses and frames, from an empty
      atlas and for any allocator.  The requests alone determine the state that each of them
      leaves; each reply is right for that state and for what the client holds by then, so
      that, before 2^64 texture creations, every frame binds the texture that has the id now
      and draws the bytes of every key held. */
  method Run(c: AtlasConfig, requests: seq<Request>) returns (replies: seq<Reply>)
    requires PolicyOk(c.policy)
    ensures |replies| == |requests|
    ensures forall i :: 0 <= i < |requests| ==> Answered(c, requests, replies, i)
  {
    assert Held([], []) == map[] && StateAfter(c, []) == EMPTY_STATE && ConfigAfter(c, []) == c;
    hide PolicyOk, Inv, Agrees, ReplyOk, Held, Answered, StateAfter, ConfigAfter, AfterRequest, Reconfigured;
    var atlas := new WgpuAtlas(c.policy, c.maxTextureSize, c.initialSize, c.colorFormat);
    var renderer := new Renderer(atlas);
    replies := [];
    NothingHeld(atlas.View());
    for n := 0 to |requests|
      invariant fresh(renderer) && fresh(renderer.atlas) && renderer.Valid() && |replies| == n
      invariant renderer.atlas.View() == StateAfter(c, requests[..n])
      invariant renderer.atlas.Config() == ConfigAfter(c, requests[..n])
      invariant Agrees(renderer.atlas.View(), Held(requests[..n], replies))
      invariant forall i :: 0 <= i < n ==> Answered(c, requests, replies, i)
    {
      ghost var held, earlier := Held(requests[..n], replies), replies;
      var reply := Serve(renderer, requests[n], held);
      replies := replies + [reply];
      OneMoreRequest(c, requests, n);
      OneMoreReply(c, requests, earlier, reply);
    }
  }

  /** The reply to the request at `i` is right for the state that the requests up to it lead
      to, and that state agrees with what the client holds then. */
  ghost predicate Answered(c: AtlasConfig, requests: seq<Request>, replies: seq<Reply>, i: nat)
    requires PolicyOk(c.policy) && i < |requests| && i < |replies|
  {
    var s := StateAfter(c, requests[..i + 1]);
    && Agrees(s, Held(requests[..i + 1], replies[..i + 1]))
    && ReplyOk(s, Held(requests[..i], replies[..i]), requests[i], replies[i])
  }

  lemma OneMoreRequest(c: AtlasConfig, requests: seq<Request>, n: nat)
    requires PolicyOk(c.policy) && n < |requests|
    ensures StateAfter(c, requests[..n + 1]) ==
            AfterRequest(ConfigAfter(c, requests[..n]), StateAfter(c, requests[..n]), requests[n])
    ensures ConfigAfter(c, requests[..n + 1]) == Reconfigured(ConfigAfter(c, requests[..n]), requests[n])
  {
    hide PolicyOk, AfterRequest, Inv;
    assert requests[..n + 1][..n] == requests[..n];
  }

  lemma OneMoreReply(c: AtlasConfig, requests: seq<Request>, earlier: seq<Reply>, reply: Reply)
    requires PolicyOk(c.policy) && |earlier| < |requests|
    requires forall i :: 0 <= i < |earlier| ==> Answered(c, requests, earlier, i)
    requires var n := |earlier|;
             var s, held := StateAfter(c, requests[..n + 1]), Held(requests[..n], earlier);
             Agrees(s, Updated(held, requests[n], reply)) && ReplyOk(s, held, requests[n], reply)
    ensures forall i :: 0 <= i <= |earlier| ==> Answered(c, requests, earlier + [reply], i)
    ensures Held(requests[..|earlier| + 1], earlier + [reply]) ==
            Updated(Held(requests[..|earlier|], earlier), requests[|earlier|], reply)
  {
    hide PolicyOk, StateAfter, Agrees, ReplyOk, Updated, Answered, Held;
    var n, replies := |earlier|, earlier + [reply];
    HeldMore(requests[..n + 1], replies);
    assert requests[..n + 1][..n] == requests[..n] && replies[..n] == earlier && replies[..n + 1] == replies;
    forall i | 0 <= i < n ensures Answered(c, requests, replies, i) {
      assert replies[..i + 1] == earlier[..i + 1];
      AnsweredByPrefix(c, requests, earlier, replies, i);
    }
    LastAnswered(c, requests, replies, n);
  }

  lemma HeldMore(requests: seq<Request>, replies: seq<Reply>)
    requires |requests| == |replies| > 0
    ensures var n := |requests| - 1;
            Held(requests, replies) == Updated(Held(requests[..n], replies[..n]), requests[n], replies[n])
  {
    hide Updated;
  }

  lemma AnsweredByPrefix(
    c: AtlasConfig, requests: seq<Request>, earlier: seq<Reply>, replies: seq<Reply>, i: nat)
    requires PolicyOk(c.policy) && i < |requests| && i < |earlier| && i < |replies|
    requires replies[..i + 1] == earlier[..i + 1] && Answered(c, requests, earlier, i)
    ensures Answered(c, requests, replies, i)
  {
    hide PolicyOk, StateAfter, Agrees, ReplyOk, Held;
    assert replies[..i] == replies[..i + 1][..i] && earlier[..i] == earlier[..i + 1][..i];
    assert replies[i] == replies[..i + 1][i] && earlier[i] == earlier[..i + 1][i];
  }

  lemma LastAnswered(c: AtlasConfig, requests: seq<Request>, replies: seq<Reply>, n: nat)
    requires PolicyOk(c.policy) && n < |requests| && |replies| == n + 1
    requires var s := StateAfter(c, requests[..n + 1]);
             && Agrees(s, Held(requests[..n + 1], replies))
             && ReplyOk(s, Held(requests[..n], replies[..n]), requests[n], replies[n])
    ensures Answered(c, requests, replies, n)
  {
    hide PolicyOk, StateAfter, Agrees, ReplyOk, Held;
    assert replies[..n + 1] == replies;
  }
}
