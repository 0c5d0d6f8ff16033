# Verified core of a GPU user-interface framework

A Dafny model of the stateful algorithms at the heart of the framework, with proofs. Each part keeps the form of the code it models: an object that updates its fields is a class whose methods are proved against functions on the old and new state, a loop is a loop with invariants, and code made of expressions is functions and lemmas.

| files | what they model |
|---|---|
| `Geometry`, `DrawOrder`, `TreeShape`, `TreeInsert`, `BoundsTree` | the array-backed spatial tree that gives every rectangle its draw order |
| `AtlasState`, `AtlasSteps`, `Atlas`, `AtlasRun` | the texture atlas with its deferred uploads, and the renderer's bind-group cache |
| `Alignment`, `InstanceBuffer` | the two passes over the renderer's instance buffer, and its growth |
| `Effects`, `EffectsProof`, `EffectRuns`, `CallRuns`, `ObserverRuns`, `DropRuns`, `DropExamples`, `App` | nested updates, the effect queue, subscriptions, dispatch, and dropping a subscription |
| `WindowIndex` | the two-way index between windows and entities, and `notify` |
| `Arena` | the chunked bump allocator |
| `AssetCache` | the asset cache as an interleaved protocol |
| `Refineable` | the code generated by `derive(Refineable)`, and cascades |
| `Color`, `TextInput`, `Lru` | RGB/HSL conversion, UTF-8/UTF-16 offsets and the text field, the LRU image cache |

`dafny verify dfyconfig.toml` checks everything.

## Main results

- **Draw orders.** For every run of inserts and clears the tree returns exactly the orders of a linear scan (`Run`): the cached maximum, both prunings, the choice of the child, node splitting and the upward pass change nothing. Intersecting means having a common inner point (`IntersectsIsCommonPoint`), and the order of a rectangle is the length of the longest chain of intersecting rectangles that ends at it (`OrderIsLongestChain`). Every reachable node vector is a tree: one parent per node, 2 to 12 children that partition what is below, exact bounds and maxima, the maximum at the end, at most 2n - 1 nodes.
- **Atlas contents.** For every allocator and every interleaving of inserts, removals, clears, device losses and frames, a client that knows only its requests and the replies can tell what a frame shows: every sprite batch binds the texture that holds its id now, never an earlier one, and every key the client holds shows the bytes it passed in, although uploads of removed tiles may still be queued for the same space (`AtlasRun.Run`, resting on `FlushKeepsInv`, `InsertKeepsInv`, `RemoveKeepsInv` and `DrawFrame`).
- **Instance buffer.** Once the predicted capacity is granted no write of the frame fails, and all bindings are aligned, disjoint, inside the buffer and hold at the end, in order, the primitives, vertices and sprites of the scene (`RecordFrame`), with or without an intermediate view.
- **Effect cycle.** In every state of every run, with any nesting of updates and callbacks, the pending sets are exactly the queued notifications and flushing happens only in the outermost update; when that has returned nothing is pending (`RunKeepsInv`, `QuietAfterUpdate`). A listener is called with exactly the events emitted for it since the step that registered it, and at any moment with the first few of them (`ListenersGetTheirEvents`, `ReceivedIsPrefix`). Every observer in place at a notification is called after it and every deferred callback is started, before the outermost update returns; nobody is called without such a cause (`ObserversAreCalled`, `RegisteredIsCalled`, `CalledWithCause`, `DeferredIsRun`).
- **Meaning of the small functions.** What both sides of a theorem are stated with is tied to something independent: the swizzle and the shown bytes to single pixels, text offsets to well-formed UTF-8 and UTF-16 (RFC 3629 and RFC 2781), colours to the sample conversion of CSS Color Module Level 4, differences of refinements to the least one that suffices, the recent hashes to the order of last use.
- **Asset cache.** Over every interleaving a load publishes at most once and only its own worker's result; each view that used it while loading is notified exactly once; an evicted load never publishes, which follows from its strong reference and the failing upgrade (`PublishedOwnResult`, `RunEvolves`, `NeverCompletesTwice`).
- **Where the code falls short of its documentation.** A dropped subscription "will no longer be invoked", says its doc comment. Outside a dispatch of its emitter that is so (`DroppedForGood`). During one it fails in two ways, each shown by a run from the start: the dropped listener is still called (`CalledAfterDrop`), or is back in the set afterwards (`DropLost`). `DropVerdict` gives the exact condition, read off the state in which the subscription is dropped, and `DroppedDuringDispatch` its two halves for any run: it is still called if and only if its turn is yet to come, it is active, waits for the type of the event and its entity lives at its turn; and it is in the set after the dispatch if and only if somebody was subscribed to the same emitter earlier in the dispatch, unless it left anyway by returning false or losing its entity. The doc comment of the tree speaks of a branching factor of 4; the constant, and the model, have 12. The doc comment of the generated `is_some` says "all fields"; the code returns at the first one that is set, so it fails for one field set and one not (`IsSomeOfHalf`) and is right exactly when there is a field and all fields are alike (`IsSomeAsDocumented`).

## Assumptions

- Coordinates and colours are exact reals; rounding and NaN are not modelled. Rectangles may have negative sizes.
- The rectangle allocator of the atlas is an arbitrary function of its whole past that returns a fresh id and a rectangle in bounds, large enough and apart from the live ones (`PolicyOk`).
- The system allocator returns memory apart from what is in use (`FreshRegion`), and the text segmenter returns character boundaries (`SegmenterOk`).
- Orders, counters of keys and byte counts are unbounded, except where the code itself wraps, saturates or checks: texture generations (2^64), buffer growth, addresses and the scope depth. `OrderAtMostCount` bounds the orders by the number of inserts.
- Build callbacks, asset results and worker timing are parameters or steps of the environment.

## Model

| member | source | states |
|---|---|---|
| `Geometry.UnionIsLeastCover` | crates/gpui/src/geometry.rs:1172-1176 | the union of two rectangles is the least rectangle that covers both |
| `Geometry.IntersectsIsCommonPoint` | crates/gpui/src/geometry.rs:942-950 | rectangles of positive size intersect exactly if some point lies strictly inside all edges of both, so sharing an edge is not enough |
| `Geometry.UnionHalfPerimeter` | crates/gpui/src/geometry.rs:1008-1010 | the half perimeter of a union is its extent from the least to the greatest edge in both directions |
| `Geometry.IntersectsCover` | crates/gpui/src/geometry.rs:942-950 | a query that meets a rectangle meets every cover of it, so spatial pruning loses nothing |
| `DrawOrder.ScanIs` | crates/gpui/src/bounds_tree.rs:455-460 | the reference scan is the highest order of an intersecting entry, and 0 if there is none |
| `DrawOrder.LaterIntersectingIsAbove` | crates/gpui/src/bounds_tree.rs:116-122 | a later rectangle that intersects an earlier one is strictly above it |
| `DrawOrder.EqualOrdersDoNotIntersect` | crates/gpui/src/bounds_tree.rs:116-122 | rectangles of equal order are pairwise non-intersecting |
| `DrawOrder.OrderIsLongestChain` | crates/gpui/src/bounds_tree.rs:116-136 | the order is the length of the longest chain of inserted, consecutively intersecting rectangles that ends there: one exists and none is longer |
| `DrawOrder.OrdersHaveNoGaps` | crates/gpui/src/bounds_tree.rs:116-136 | every order from 1 up to one in use is in use, no later than it |
| `DrawOrder.OrderAtMostCount` | crates/gpui/src/bounds_tree.rs:116-136 | the order of the k-th rectangle is between 1 and k |
| `TreeShape.OneParent` | crates/gpui/src/bounds_tree.rs:58-71 | in a reachable tree a node is a child of at most one node, and the root of none |
| `TreeShape.ChildIsSmaller` | crates/gpui/src/bounds_tree.rs:237-244 | a child has strictly fewer leaves below it than its parent, so descents end although indices are not monotone |
| `TreeInsert.PropagateStep` | crates/gpui/src/bounds_tree.rs:329-353 | one step of the upward pass makes one more path node exact, keeps all finished nodes and changes no child set |
| `TreeInsert.DirectAttach` | crates/gpui/src/bounds_tree.rs:263-280 | pushing the leaf to a node with room, with the swap that keeps the maximum last, is ready for the upward pass |
| `TreeInsert.SplitAttach` | crates/gpui/src/bounds_tree.rs:281-324 | moving a leaf of a full node below a fresh inner node, with both swaps, is ready for the upward pass |
| `BoundsTreeModel.EntryReachable` | crates/gpui/src/bounds_tree.rs:197-356 | every inserted rectangle is in a leaf, with its bounds and order, that child links lead to from any node it is below |
| `BoundsTreeModel.BoundsTree.constructor` | crates/gpui/src/bounds_tree.rs:363-371 | the empty tree is valid |
| `BoundsTreeModel.BoundsTree.Clear` | crates/gpui/src/bounds_tree.rs:108-114 | leaves a valid tree with empty history |
| `BoundsTreeModel.BoundsTree.FindMaxOrdering` | crates/gpui/src/bounds_tree.rs:139-151 | returns the scan of the history, also on the fast path |
| `BoundsTreeModel.BoundsTree.SearchTree` | crates/gpui/src/bounds_tree.rs:153-193 | the pruned search returns the scan of the history and ends |
| `BoundsTreeModel.Improving` | crates/gpui/src/bounds_tree.rs:180-187 | exactly the children whose maximum exceeds what was found, without duplicates |
| `BoundsTreeModel.BoundsTree.Insert` | crates/gpui/src/bounds_tree.rs:120-136 | keeps the tree and the cached maximum leaf, returns one more than the scan, appends to the history |
| `BoundsTreeModel.BoundsTree.InsertLeaf` | crates/gpui/src/bounds_tree.rs:197-356 | keeps the tree for any order, adds the leaf, leaves the old leaves as they are |
| `BoundsTreeModel.BoundsTree.Descend` | crates/gpui/src/bounds_tree.rs:236-262 | follows child links from the root to a node whose cheapest child is a leaf, and ends |
| `BoundsTreeModel.BoundsTree.BestChild` | crates/gpui/src/bounds_tree.rs:246-262 | the first child of least half perimeter after the union |
| `BoundsTreeModel.BoundsTree.AttachLeaf` | crates/gpui/src/bounds_tree.rs:262-326 | adds the leaf and at most one inner node; everything off the path is exact afterwards |
| `BoundsTreeModel.BoundsTree.PropagateUp` | crates/gpui/src/bounds_tree.rs:329-353 | turns that into a tree again |
| `BoundsTreeModel.Run` | crates/gpui/src/bounds_tree.rs:438-471 | for every sequence of inserts and clears, every order equals that of the linear scan |
| `AtlasState.SwizzleInvolution` | crates/gpui-wgpu/src/wgpu_atlas.rs:385-396 | swizzling twice gives the bytes back |
| `AtlasState.WithoutKeepsOthers` | crates/gpui-wgpu/src/wgpu_atlas.rs:160-161 | dropping the uploads of one texture changes no other texture's writes |
| `AtlasSteps.PushKeepsInv` | crates/gpui-wgpu/src/wgpu_atlas.rs:228-260 | a new texture in a free or new slot keeps the whole atlas invariant |
| `AtlasSteps.InsertKeepsInv` | crates/gpui-wgpu/src/wgpu_atlas.rs:135-140 | allocating, queueing the upload and recording the tile keeps the invariant, whatever is still queued |
| `AtlasSteps.CountIsPositive` | crates/gpui-wgpu/src/wgpu_atlas.rs:376-378 | the key count never underflows |
| `AtlasSteps.RemoveKeepsInv` | crates/gpui-wgpu/src/wgpu_atlas.rs:144-169 | removing a key keeps the invariant, whether or not its texture goes |
| `AtlasSteps.FlushWrites` | crates/gpui-wgpu/src/wgpu_atlas.rs:274-305 | a live texture receives exactly its queued uploads, in order |
| `AtlasSteps.FlushKeepsInv` | crates/gpui-wgpu/src/wgpu_atlas.rs:274-305 | after the flush every cached tile shows exactly its key's bytes |
| `Atlas.SwizzleUploadData` | crates/gpui-wgpu/src/wgpu_atlas.rs:385-396 | RGBA data: red and blue of every whole pixel change places, green, alpha and the rest stay; data of every other format stays as it is |
| `Atlas.SwizzledPixels` | crates/gpui-wgpu/src/wgpu_atlas.rs:385-396 | the bytes that uploads and contents are stated with are those, pixel by pixel |
| `Atlas.TextureSizeIs` | crates/gpui-wgpu/src/wgpu_atlas.rs:194-205 | a new texture is at least as large as asked for and as the initial size wherever the device allows it, and never larger than the device allows or than the larger of the two |
| `Atlas.WgpuAtlas.constructor` | crates/gpui-wgpu/src/wgpu_atlas.rs:52-70 | an empty atlas is valid for every allocator that meets its contract |
| `Atlas.WgpuAtlas.Clear` | crates/gpui-wgpu/src/wgpu_atlas.rs:101-106 | drops textures, tiles and uploads; generations, creations and what the GPU holds go on |
| `Atlas.WgpuAtlas.HandleDeviceLost` | crates/gpui-wgpu/src/wgpu_atlas.rs:110-118 | the same, with the new colour format |
| `Atlas.WgpuAtlas.BeforeFrame` | crates/gpui-wgpu/src/wgpu_atlas.rs:81-84 | the whole new state: every live texture has received exactly its queued uploads, in order, and nothing else changed; every cached tile then shows its key's bytes |
| `Atlas.WgpuAtlas.GetOrInsertWith` | crates/gpui-wgpu/src/wgpu_atlas.rs:122-142 | a hit, a failed build and an empty build change nothing; otherwise the whole new state is known: the tile is in the last texture of its kind that accepts it, or in a new one if all refuse, with its upload queued behind the others and its bytes recorded; or there is no room and exactly one live empty texture was added |
| `Atlas.WgpuAtlas.InsertTile` | crates/gpui-wgpu/src/wgpu_atlas.rs:135-140 | the same for a missing key; texture creations never go back |
| `Atlas.WgpuAtlas.UploadTexture` | crates/gpui-wgpu/src/wgpu_atlas.rs:263-272 | queues the swizzled bytes |
| `Atlas.WgpuAtlas.Allocate` | crates/gpui-wgpu/src/wgpu_atlas.rs:173-192 | takes the last texture of the kind that accepts, and makes a new one only if all refuse |
| `Atlas.WgpuAtlas.PushTexture` | crates/gpui-wgpu/src/wgpu_atlas.rs:194-261 | adds exactly one texture of clamped size, with the next, wrapping, generation |
| `Atlas.WgpuAtlas.Remove` | crates/gpui-wgpu/src/wgpu_atlas.rs:144-169 | the count was positive, and the texture goes exactly when it was one |
| `Atlas.RetainUploads` | crates/gpui-wgpu/src/wgpu_atlas.rs:160-161 | keeps exactly the uploads of other textures, in order |
| `Atlas.SceneTextures` | crates/gpui-wgpu/src/wgpu_renderer.rs:1519-1529 | the sprite textures of the scene, each once |
| `Atlas.Renderer.PrepareTextureBindGroups` | crates/gpui-wgpu/src/wgpu_renderer.rs:1518-1561 | groups exist exactly for the live textures of the scene, with their generations |
| `Atlas.Renderer.DrawFrame` | crates/gpui-wgpu/src/wgpu_renderer.rs:1579-1602 | every drawn batch binds a texture that agrees with the one that has the id now up to a multiple of 2^64 in its creation number; before 2^64 creations it is that texture, and shows each key's own bytes |
| `AtlasRun.Serve` | crates/gpui-wgpu/src/wgpu_atlas.rs:122-169 | one request of any kind has exactly the effect that the request determines, keeps atlas and renderer valid, and is answered rightly for that state and for what the client holds |
| `AtlasRun.Run` | crates/gpui-wgpu/src/wgpu_atlas.rs:81-169 | for every allocator and every interleaving of inserts, removals, clears, device losses and frames from an empty atlas: the requests alone determine the state after each of them, and every reply is right for it, so that a held key keeps its tile, and before 2^64 creations every frame binds the texture that has each id now, never an earlier one, and its contents show the bytes the client passed in for every key it holds there |
| `AtlasRun.TexelIsPixel` | crates/gpui-wgpu/src/wgpu_atlas.rs:274-305 | the bytes a texture shows at a texel of a held tile are those of the client's pixel there, red and blue swapped for RGBA, at one byte a pixel for glyphs and four for colour |
| `AtlasRun.FormatsAfter` | crates/gpui-wgpu/src/wgpu_atlas.rs:206-209 | after all requests every monochrome texture has the one-byte format and every colour texture the format of the device at hand |
| `AtlasRun.AttemptedIs` | crates/gpui-wgpu/src/wgpu_atlas.rs:173-192 | the outcome of inserting a missing key is determined: the last texture of the kind that accepts, else a new one, else only an empty texture more |
| `Alignment.NextMultipleIsLeast` | crates/gpui-wgpu/src/wgpu_renderer.rs:1712-1712 | the aligned offset is the least multiple not below the cursor |
| `InstanceBuffer.BuildPathSprites` | crates/gpui-wgpu/src/wgpu_renderer.rs:2104-2130 | if the first and the last path have one order there is a sprite for each path, with its bounds; otherwise there is one sprite, and it is the least rectangle that covers all paths; as many as the first pass counted |
| `InstanceBuffer.SpritesAreRight` | crates/gpui-wgpu/src/wgpu_renderer.rs:2104-2122 | the same of the sprites the frame's bytes are made of |
| `InstanceBuffer.UnionBoundsLeast` | crates/gpui-wgpu/src/wgpu_renderer.rs:2113-2119 | the sprite of a mixed batch is the least rectangle covering all paths |
| `InstanceBuffer.MissingViewEndsEarlier` | crates/gpui-wgpu/src/wgpu_renderer.rs:1656-1669 | without an intermediate view the cursor ends no later than predicted |
| `InstanceBuffer.FitsAfter` | crates/gpui-wgpu/src/wgpu_renderer.rs:1743-1780 | what is written through any batch fits the prediction |
| `InstanceBuffer.NextCapacityExact` | crates/gpui/src/resource_profile.rs:337-353 | growth up to 2^63 bytes fails exactly past the maximum, and grants enough |
| `InstanceBuffer.InstanceRenderer.FrameInstanceBytes` | crates/gpui-wgpu/src/wgpu_renderer.rs:1743-1780 | the first pass computes the end of the full layout |
| `InstanceBuffer.InstanceRenderer.EnsureInstanceCapacity` | crates/gpui-wgpu/src/wgpu_renderer.rs:1782-1787 | succeeds exactly when the buffer suffices or may grow, and then suffices |
| `InstanceBuffer.InstanceRenderer.Trim` | crates/gpui-wgpu/src/wgpu_renderer.rs:1797-1820 | shrinks to the initial size, never grows |
| `InstanceBuffer.BindingsGrow` | crates/gpui-wgpu/src/wgpu_renderer.rs:1708-1725 | one more write leaves all earlier bindings intact and disjoint from it |
| `InstanceBuffer.InstanceRenderer.WriteInstanceBinding` | crates/gpui-wgpu/src/wgpu_renderer.rs:1702-1741 | fails exactly when it would pass the end of the buffer |
| `InstanceBuffer.InstanceRenderer.WriteInstances` | crates/gpui-wgpu/src/wgpu_renderer.rs:1460-1492 | the five primitive arrays, in order, never failing |
| `InstanceBuffer.InstanceRenderer.DrawPaths` | crates/gpui-wgpu/src/wgpu_renderer.rs:1613-1664 | vertices, then sprites if there is a view; nothing for a batch without vertices |
| `InstanceBuffer.InstanceRenderer.RecordFrame` | crates/gpui-wgpu/src/wgpu_renderer.rs:1119-1213 | fails exactly when the capacity is refused; otherwise every binding is aligned, at least 16 bytes and as large as its data, disjoint, inside and holds its data: the first five quads, shadows, underlines, monochrome and polychrome sprites, and then for every drawn batch the bytes of each path's vertices and of each sprite, one behind the other |
| `InstanceBuffer.FrameUploads` | crates/gpui-wgpu/src/wgpu_renderer.rs:1613-1664 | in the frame's bindings each path's vertices and each sprite's encoding stand at their offset, at the position of their batch |
| `EffectsProof.StepEnabled` | crates/gpui/src/app.rs:976-987 | while something runs the counter is positive, so it never underflows |
| `EffectsProof.StepKeepsInv` | crates/gpui/src/app.rs:1767-1931 | every step of the cycle keeps the invariant |
| `EffectsProof.RunKeepsInv` | crates/gpui/src/app.rs:969-987 | so does every run, for any nesting of updates and callbacks |
| `EffectsProof.PendingMatchesQueue` | crates/gpui/src/app.rs:1767-1783 | in every state the pending sets are exactly the queued notifications, each queued once |
| `EffectsProof.FlushOnlyOutermost` | crates/gpui/src/app.rs:980-987 | a flush belongs to the outermost update and is never re-entered |
| `EffectsProof.QuietAfterUpdate` | crates/gpui/src/app.rs:1788-1852 | after the outermost update the queue and both sets are empty, the counter is zero and nothing flushes |
| `EffectRuns.ListenersGetTheirEvents` | crates/gpui/src/app.rs:1090-1124 | after the outermost update a listener nobody unsubscribed, that returned true and whose entity lives has been called with exactly the events of its type that the run emitted for its entity since the step that registered it: in order, once each, none from before |
| `EffectRuns.ReceivedIsPrefix` | crates/gpui/src/app.rs:1905-1915 | at any moment it has been called with the first few of them |
| `EffectRuns.LedgerFromRun` | crates/gpui/src/app.rs:2046-2050 | the bookkeeping of owed and delivered events is what the emitting and calling steps of the run say |
| `EffectRuns.UndisturbedStays` | crates/gpui/src/subscription.rs:116-153 | such a listener is found in every state, in the set or taken out by a dispatch |
| `CallRuns.NthCallRunsNthResponse` | crates/gpui/src/subscription.rs:130-136 | over every run the n-th call of a subscriber carries out exactly its n-th response, before anything else |
| `CallRuns.ActiveWhenQuiet` | crates/gpui/src/app.rs:1090-1098 | once the outermost update has returned every subscriber that is found is active |
| `ObserverRuns.AnnouncedIsDelivered` | crates/gpui/src/app.rs:1788-1822 | an active subscriber in place when something is announced to it is called after that, before the outermost update returns, unless its subscription is dropped or its entity released |
| `ObserverRuns.ObserversAreCalled` | crates/gpui/src/app.rs:1897-1903 | so is every observer of an entity after each `notify` of it |
| `ObserverRuns.GlobalObserversAreCalled` | crates/gpui/src/app.rs:1926-1931 | and every observer of a global after each of its notifications |
| `ObserverRuns.RegisteredIsCalled` | crates/gpui/src/app.rs:1897-1931 | so is, for whatever is announced to it, every subscriber registered in an earlier update that nobody unsubscribed, that returned true and whose entity lives |
| `ObserverRuns.CalledWithCause` | crates/gpui/src/app.rs:1897-1931 | conversely only an active subscriber is called, never for a released entity, and only for an effect addressed to it that some operation of the run announced before |
| `ObserverRuns.DeferredIsRun` | crates/gpui/src/app.rs:1820-1822 | every deferred callback is started after it was deferred, before the outermost update returns |
| `DropRuns.DroppedForGood` | crates/gpui/src/subscription.rs:70-90 | a subscriber dropped while it is in the set is gone at once and never called again |
| `DropRuns.AbsentForever` | crates/gpui/src/subscription.rs:51-69 | a subscriber that is gone never comes back |
| `DropRuns.TouchedMeansAdded` | crates/gpui/src/subscription.rs:79-90 | during a dispatch, over every run, the emitter's entry stops marking it exactly if somebody was subscribed to that emitter since it began |
| `DropRuns.OneTurn` | crates/gpui/src/subscription.rs:130-136 | every subscriber taken out has exactly one turn, and is called then exactly if it is active, waits for the event's type and its entity lives, dropped or not |
| `DropRuns.SurvivesDispatch` | crates/gpui/src/subscription.rs:138-153 | exactly which subscribers are in the set when their dispatch ends, by what their callback returns in that dispatch |
| `DropRuns.DroppedDuringDispatch` | crates/gpui/src/subscription.rs:70-90 | of a subscription dropped during its emitter's dispatch: exactly when it is still called in that dispatch, and exactly when it is in the set afterwards |
| `DropRuns.DropHonoured` | crates/gpui/src/subscription.rs:156-160 | the documented promise holds for the rest of the run if nobody was subscribed to the emitter earlier in the dispatch and the turn is over or not for it |
| `DropRuns.DropOutcome` | crates/gpui/src/subscription.rs:70-90 | if the entity is not released before the dispatch ends, the state in which the subscription is dropped tells exactly whether it is still called and whether it stays in the set |
| `DropRuns.LostIsCalled` | crates/gpui/src/subscription.rs:116-136 | a drop that was lost is felt: by the end of the next dispatch that has something for the subscriber, it has been called |
| `DropRuns.DropVerdict` | crates/gpui/src/subscription.rs:156-160 | when the emitter is dispatched again later, the callback was invoked after the drop if and only if the state in which it was dropped shows it still to be called or left in the set: exactly when the documented promise is broken |
| `DropExamples.CalledAfterDrop` | crates/gpui/src/subscription.rs:156-160 | a run from the start in which nobody is added and the drop is noted, yet the dropped listener is called |
| `DropExamples.DropLost` | crates/gpui/src/subscription.rs:138-153 | a run from the start in which the dropped listener is in the set, active, after the dispatch |
| `EffectsProof.IdsForMembers` | crates/gpui/src/subscription.rs:130-136 | a dispatch visits each subscriber of its emitter once, in order of registration |
| `App.Application.constructor` | crates/gpui/src/app.rs:969-987 | the initial state satisfies the invariant |
| `App.Application.QueueEffect` | crates/gpui/src/app.rs:1767-1783 | the pending sets stay exactly the queued targets; a coalescing effect is queued exactly once afterwards, any other at the end |
| `App.Application.NewSubscription` | crates/gpui/src/app.rs:1090-1098 | a new id that nobody had, found inert, and owed nothing of what is queued by now; queue and set stay in order |
| `App.Application.DropSubscription` | crates/gpui/src/subscription.rs:70-90 | in the set, the subscriber is gone; taken out, it stays and the drop is noted exactly if the entry is untouched; no other subscriber is affected |
| `App.Application.StartUpdate` | crates/gpui/src/app.rs:969-978 | at top level or in a callback, the invariant holds with one more update open, and nothing is flushed |
| `App.Application.Perform` | crates/gpui/src/app.rs:2046-2050 | every operation of a callback keeps the invariant, never flushes, and only adds to queue and call stack |
| `App.Application.EndUpdate` | crates/gpui/src/app.rs:980-987 | the outermost update starts the flush; any other only takes one off the positive counter |
| `App.Application.CollectIds` | crates/gpui/src/subscription.rs:120-128 | the ids of an emitter's subscribers |
| `App.Application.BeginRetain` | crates/gpui/src/subscription.rs:116-128 | visits exactly the emitter's subscribers, oldest first, and loses none |
| `App.Application.RetainOnce` | crates/gpui/src/subscription.rs:130-153 | keeps the invariant; ends exactly when nobody is left, and then exactly the noted drops are missing; before that treats each subscriber taken out as `TakenStep` says |
| `App.Application.FlushOnce` | crates/gpui/src/app.rs:1788-1852 | keeps the invariant; releases first, then effects first in first out; left exactly when there is neither |
| `App.Application.ApplyEffect` | crates/gpui/src/app.rs:1792-1822 | takes exactly the first effect; a notification, an event or a global notification takes out exactly the observers, listeners or global observers it is for, to be visited oldest first, and its target may be queued again; a deferred script is started; an activated subscriber is active |
| `App.Application.StepOnce` | crates/gpui/src/app.rs:1788-1852 | keeps the invariant and extends the recorded run by one step of the machine |
| `App.Application.Update` | crates/gpui/src/app.rs:969-974 | the recorded history is a run; if the update returns, everything is quiet, and over the whole history every listener in place has been called with exactly the events emitted for it since it was registered, every observer in place at a notification was called after it, and every deferred script was started |
| `WindowIndex.AppIndex.RecordEntitiesAccessed` | crates/gpui/src/app.rs:1018-1043 | the window's set becomes the recorded one and both directions of the index agree |
| `WindowIndex.AppIndex.NotifyEntity` | crates/gpui/src/app.rs:2679-2699 | the index is unchanged afterwards; in each of the entity's windows the view is marked, and nothing else changes in any window; a notification is queued unless all of them are drawing or it is queued already |
| `WindowIndex.AppIndex.PushNotify` | crates/gpui/src/app.rs:1767-1783 | queues a notification at most once, as the effect queue does |
| `WindowIndex.AppIndex.InvalidateView` | crates/gpui/src/window.rs:127-138 | adds the view to the marked ones of that window only, marks the window dirty unless it is drawing, and queues a notification exactly if it is not drawing and none is queued |
| `ArenaModel.PristineChunkFits` | crates/gpui/src/arena.rs:59-78 | a pristine chunk takes every layout with size + align - 1 within its size |
| `ArenaModel.AllocateIsFirst` | crates/gpui/src/arena.rs:59-78 | a chunk takes an object exactly if it has an aligned place for it behind what is in use, and gives it the first such place |
| `ArenaModel.NewObjectApart` | crates/gpui/src/arena.rs:172-196 | a new object is apart from every live one |
| `ArenaModel.PlacedKeepsLive` | crates/gpui/src/arena.rs:172-202 | placing an object keeps all live objects aligned, in their chunks, pairwise apart and with their values |
| `ArenaModel.Arena.constructor` | crates/gpui/src/arena.rs:101-111 | a new arena is valid and empty |
| `ArenaModel.Arena.BeginScope` | crates/gpui/src/arena.rs:117-122 | fails only on overflow of the depth |
| `ArenaModel.Arena.EndScope` | crates/gpui/src/arena.rs:124-129 | fails exactly without an open scope |
| `ArenaModel.Arena.Clear` | crates/gpui/src/arena.rs:137-141 | takes effect exactly when no scope is open |
| `ArenaModel.Arena.ForceClear` | crates/gpui/src/arena.rs:143-151 | runs every pending destructor once, in order, invalidates all boxes, and every chunk is pristine although only the used ones are reset |
| `ArenaModel.Arena.Alloc` | crates/gpui/src/arena.rs:154-209 | places the object at the first aligned address of the current chunk from which it fits, else of the next; panics exactly when neither fits, and never when size + align - 1 fits a chunk |
| `ArenaModel.Arena.AdvanceChunk` | crates/gpui/src/arena.rs:177-186 | moves on to a pristine chunk |
| `ArenaModel.Arena.Place` | crates/gpui/src/arena.rs:198-202 | records the object and its value |
| `ArenaModel.Arena.Deref` | crates/gpui/src/arena.rs:227-243 | yields the value exactly when no effective clear happened since the box was issued |
| `AssetCache.Assets.FetchAsset` | crates/gpui/src/app.rs:2653-2656 | the result of the key's own worker exactly once the task has run; starts a load only if there was none |
| `AssetCache.Assets.UseBy` | crates/gpui/src/asset_cache.rs:60-68 | the same, and a view that gets no result is down for a notification |
| `AssetCache.Assets.RemoveAsset` | crates/gpui/src/app.rs:2637-2640 | no load of the key keeps a strong reference |
| `AssetCache.Assets.PollTask` | crates/gpui/src/asset_cache.rs:30-48 | a held load gets its worker's result and notifies each of its views once; a load let go stays as it is, by the upgrade alone; the panic is unreachable |
| `AssetCache.RunKeepsInv` | crates/gpui/src/asset_cache.rs:25-69 | every interleaving of fetch, use, evict, worker completion and polling keeps the protocol's invariant, whether or not an eviction still cancels the task |
| `AssetCache.PublishedOwnResult` | crates/gpui/src/asset_cache.rs:32-47 | a loaded entry holds its own worker's result; each view that used it while loading is notified exactly once, and nobody before |
| `AssetCache.UsersFromRun` | crates/gpui/src/asset_cache.rs:60-68 | who is down for a notification is who used the load in the run while it was loading |
| `AssetCache.WorkerFromRun` | crates/gpui/src/asset_cache.rs:25-37 | a load's worker has the result that a completion step of the run gave for that load |
| `AssetCache.NeverCompletesTwice` | crates/gpui/src/asset_cache.rs:38-40 | a load has a strong reference exactly as long as the map holds it, a held load is loading exactly until its task has run, and no task ever finds a result: the panic is never reached |
| `AssetCache.RunEvolves` | crates/gpui/src/app.rs:2637-2640 | results never change, and an evicted load never publishes, neither into its own cell nor into a replacement: its upgrade fails |
| `AssetCache.OneLoadPerMiss` | crates/gpui/src/app.rs:2658-2669 | loads started equal requests that found no entry, for every key |
| `Refineable.Refine` | crates/derive_refineable/src/derive_refineable.rs:104-129 | refining in place, field by field, equals refining by value |
| `Refineable.RefinedTwice` | crates/derive_refineable/src/derive_refineable.rs:131-196 | refining twice is refining by the merge, for every nested record type |
| `Refineable.MergeAssociative` | crates/derive_refineable/src/derive_refineable.rs:178-196 | merging refinements is associative |
| `Refineable.EmptyIsIdentity` | crates/derive_refineable/src/derive_refineable.rs:256-274 | the empty refinement is the identity on both sides and on records |
| `Refineable.NonEmptyHasEffect` | crates/refineable/src/refineable.rs:66-69 | any other refinement changes some record of each type it fits |
| `Refineable.IsSomeIsNotEmpty` | crates/derive_refineable/src/derive_refineable.rs:490-498 | `is_some` is exactly "not empty" |
| `Refineable.IsSomeAsDocumented` | crates/derive_refineable/src/derive_refineable.rs:490-498 | it means "all fields are set" exactly for refinements with a field and all fields alike |
| `Refineable.IsSomeOfHalf` | crates/derive_refineable/src/derive_refineable.rs:490-498 | with one field set and one not it holds, though not all are set |
| `Refineable.SupersetMeansNoChange` | crates/derive_refineable/src/derive_refineable.rs:276-305 | `is_superset_of` holds exactly when refining changes nothing |
| `Refineable.MergeSupersetMeansNoChange` | crates/derive_refineable/src/derive_refineable.rs:307-327 | the same on refinements |
| `Refineable.DifferenceSuffices` | crates/derive_refineable/src/derive_refineable.rs:364-384 | over `b`, the difference of `a` and `b` says all that `a` says |
| `Refineable.SubtractRebuilds` | crates/derive_refineable/src/derive_refineable.rs:329-362 | a record is rebuilt from the difference exactly when no optional field would have to be unset |
| `Refineable.SubtractIsLeast` | crates/derive_refineable/src/derive_refineable.rs:329-362 | nothing less would do: from some record of the type, every refinement that leads back to the values of the minuend sets all that the difference sets, so what agrees already is left out |
| `Refineable.DifferenceIsLeast` | crates/derive_refineable/src/derive_refineable.rs:364-384 | whatever has the effect of `a` over `b` sets all that their difference sets |
| `Refineable.RefinedHasAll` | crates/derive_refineable/src/derive_refineable.rs:131-176 | a refined record has everything the refinement sets |
| `Refineable.FromIsDefaultRefined` | crates/derive_refineable/src/derive_refineable.rs:198-219 | `From` is the fieldwise default, refined |
| `Refineable.DefaultOfRecord` | crates/derive_refineable/src/derive_refineable.rs:198-219 | plain fields start at their default, optional ones empty, at every depth |
| `Refineable.Merged` | crates/refineable/src/refineable.rs:125-131 | folds the slots of a cascade |
| `Refineable.CascadeAppliesInOrder` | crates/refineable/src/refineable.rs:44-50 | refining by the merged cascade is refining by its slots in order |
| `Color.RgbRoundTrip` | crates/gpui/src/color.rs:591-627 | on the whole unit cube RGB to HSL to RGB is the identity, and the HSL values are in range |
| `Color.HslRoundTrip` | crates/gpui/src/color.rs:134-162 | HSL to RGB to HSL is the identity exactly for colours with saturation and lightness strictly inside, and for greys without hue |
| `Color.ToRgbIsCss` | crates/gpui/src/color.rs:134-162 | for every colour the components are those of the sample conversion in section 7 of CSS Color Module Level 4 |
| `Color.GreyRoundTrip` | crates/gpui/src/color.rs:601-611 | everywhere else only the lightness survives |
| `Color.SectorOfHue` | crates/gpui/src/color.rs:610-618 | the hue lies in [0, 6) and leads back to the three components, in every sector and on its boundaries |
| `TextInput.ConvertOffset` | crates/gpui-compat/examples/input.rs:197-225 | both offset conversions, as the offset of the first character that reaches the given one |
| `TextInput.UnitsCount` | crates/gpui-compat/examples/input.rs:197-225 | a character counts for as many units as any well-formed UTF-8 or UTF-16 encoding of it has |
| `TextInput.UnitsExist` | crates/gpui-compat/examples/input.rs:197-225 | and every scalar value has one |
| `TextInput.OffsetInText` | crates/gpui-compat/examples/input.rs:197-225 | so the offset of a character is the length of the encoded text before it |
| `TextInput.ConvertMonotone` | crates/gpui-compat/examples/input.rs:197-225 | conversions are monotone and land on character boundaries |
| `TextInput.ConvertInverse` | crates/gpui-compat/examples/input.rs:197-225 | on boundaries they undo each other |
| `TextInput.ConvertRoundsUp` | crates/gpui-compat/examples/input.rs:197-225 | inside a character they round up, past the end they stop there |
| `TextInput.TextField.MoveTo` | crates/gpui-compat/examples/input.rs:153-156 | an empty selection at the offset |
| `TextInput.TextField.SelectTo` | crates/gpui-compat/examples/input.rs:184-195 | moves the cursor, keeps the anchor and an ordered range |
| `TextInput.TextField.PreviousBoundary` | crates/gpui-compat/examples/input.rs:235-241 | the last grapheme start before the offset, or 0 |
| `TextInput.TextField.NextBoundary` | crates/gpui-compat/examples/input.rs:243-248 | the first grapheme start after the offset, or the end |
| `TextInput.TextField.Left` | crates/gpui-compat/examples/input.rs:46-52 | collapses a selection to its start, else moves the caret to the last grapheme start before it; stays on a boundary |
| `TextInput.TextField.Right` | crates/gpui-compat/examples/input.rs:54-60 | collapses a selection to its end, else moves the caret to the first grapheme start after it; stays inside |
| `TextInput.TextField.SelectAll` | crates/gpui-compat/examples/input.rs:70-73 | selects the whole content in either direction of the old selection |
| `TextInput.TextField.ReplaceTextInRange` | crates/gpui-compat/examples/input.rs:300-319 | replaces the chosen range, with the caret behind the new text, everything on boundaries |
| `TextInput.TextField.Backspace` | crates/gpui-compat/examples/input.rs:83-88 | removes the marked text, the selection or the grapheme before the cursor |
| `TextInput.CaretBehindText` | crates/gpui-compat/examples/input.rs:313-316 | the caret behind the inserted text is a boundary of the new content, also for reversed ranges |
| `TextInput.ReplacedLength` | crates/gpui-compat/examples/input.rs:313-315 | an ordered edit changes the length by what it removes and adds; putting the removed text back restores the content |
| `TextInput.ReplacedChars` | crates/gpui-compat/examples/input.rs:313-315 | an edit puts exactly the new characters between what was before the range and what was behind it |
| `Lru.HitKeepsPrefix` | crates/gpui-compat/examples/image_gallery.rs:204-213 | a hit reorders the most recent hashes as the longer history demands |
| `Lru.MissShiftsPrefix` | crates/gpui-compat/examples/image_gallery.rs:216-229 | so does a miss, dropping the oldest |
| `Lru.RecentDistinct` | crates/gpui-compat/examples/image_gallery.rs:192-232 | the recent hashes are the history's, each once |
| `Lru.MostRecentFirst` | crates/gpui-compat/examples/image_gallery.rs:192-232 | of two recent hashes the one used last comes first |
| `Lru.TakeCounts` | crates/gpui-compat/examples/image_gallery.rs:192-232 | as many hashes are kept as there are distinct ones, up to the capacity |
| `Lru.LruCache.Load` | crates/gpui-compat/examples/image_gallery.rs:192-232 | the usage list is always the most recent distinct hashes and exactly the cached keys, so no assertion or `expect` fails |
| `Lru.LruCache.MoveToFront` | crates/gpui-compat/examples/image_gallery.rs:205-211 | the hash moves to the front and nothing else changes |
| `Lru.LruCache.Insert` | crates/gpui-compat/examples/image_gallery.rs:216-229 | evicts only the oldest, and only when full |
| `Lru.Position` | crates/gpui-compat/examples/image_gallery.rs:205-209 | the first position of a hash that is present |

## Left out

- GPU, window-system and shader calls: only texture contents, buffer bytes and cursors are kept.
- Floating-point rounding, hex colour parsing and the truncating conversion of a colour to 32 bits.
- Termination of a flush: callbacks may queue effects forever. `App.Application.Update` follows an update for a given number of steps and says what holds once it has returned; the runs of `EffectsProof` have no bound.
- App.Application.Update: a callback is what it does call by call, each time a finite script of operations and a result, and the Rust call stack is a field; how it computes them from captured variables is not modelled; `App::shutdown`, release callbacks, entity-created effects and focus handles are not part of the model.
- Observers: `ObserversAreCalled` asks the observer to be active at the `notify`; one made between its registration and its activation, in the same update, may coalesce with a notification queued before and then goes unseen by it.
- ArenaModel.Arena.Deref: writing through a box and narrowing it with `map` are not modelled; a value is what was placed.
- AssetCache.PublishedOwnResult: the notification itself is a log entry; an application that has shut down by then is not modelled.
- TextInput: the explicit selection of `replace_and_mark_text_in_range`, mouse hit testing, clipboard and layout; `delete`, `cut` and `paste` are compositions of modelled operations.
- Overflow of the predicted byte count and of draw orders: it would take 2^64 bytes of primitives or 2^32 rectangles in one frame.
- The tab controller, action registry, style tables, platform forwarding and macro plumbing would only add easy members.
