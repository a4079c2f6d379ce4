# SuperTux renderer core, command line and level statistics in Dafny

This project models the bookkeeping core of SuperTux's deferred renderer,
together with two small pieces of game logic, and proves properties of the
model.

- **Renderer** (`src/video/`). The renderer has the following parts:
  - **The drawing context.** It keeps two request queues, a screen queue and
    a lightmap queue. Each submission goes through the current transform, is
    culled or clipped, and is appended to the queue the current target
    selects. A transform stack and a target stack follow LIFO discipline.
    `do_drawing` may inject a lightmap composite request, stable-sorts the
    screen queue by layer and drains it.
  - **Surfaces.** A surface is a reference-counted view onto an image
    texture: a region plus a flip flag. On the software path it keeps a
    per-effect cache of scaled and flipped pixel buffers.
  - **Pixel kernels.** `horz_flip`, `vert_flip`, the bilinear `scale` and
    `merge`.
  - **Textures.** Texture construction checks powers of two and colour depth.
    The backend-guarded accessors are modelled too.
  - **The texture manager.** It holds a path-keyed image cache and a set of
    registered textures. Its save/reload protocol parks every texture while
    the OpenGL context is recreated.
- **Level statistics** (`src/statistics.cpp`). A record with "never played"
  sentinels. It supports reset, merge, `+=`, invalidation, the display cycle
  of the world-map panel and the mm:ss time arithmetic.
- **Command line** (`src/main.cpp`). This part covers:
  - `pre_parse_commandline`;
  - `parse_commandline`, including a model of `sscanf("%dx%d")` for
    `--geometry`;
  - the `.zip` archive test of the search-path loop;
  - the `.stwm` test that picks the first screen.

## How it is organised

There is one module per source file, plus two shared modules:

- `Geometry`: vectors, colours, rectangles and float-to-int truncation, from
  headers that are not part of this model.
- `Pow2`: the specification of powers of two.

Code that changes state is modelled as classes with `modifies` frames. The
drawing context, surfaces, textures, the texture manager, statistics and the
configuration are modelled this way. Loops are methods with invariants, and
each method is proved against a specification function:

- the array insertion sort against `SortByLayer`;
- the flip loops against `MirrorRows` and `MirrorColumns`;
- `Scale` against `ClampedBilinearAt`;
- `ParseCommandline` against `ParseFrom`;
- the save loops against `AfterSaveAll`.

Partner lemmas state what those specification functions promise:

- the sort is a permutation, sorted and stable;
- each mirror is its own inverse;
- the geometry round trip holds: the parse sets what `Decimal` printed;
- saving twice is saving once;
- the display cycle has period four;
- and so on.

Outside inputs are parameters:

- the OpenGL/SDL backend choice (`useOpengl`);
- the handles the driver generates;
- whether an upload or an allocation fails (except the lightmap texture of a new drawing context; see Left out);
- the image the loader returns;
- path normalisation;
- the screen size;
- whether a timer is running.

Integers are unbounded. Preconditions guard the two places where a 32-bit
`int` result must stay in range: `next_power_of_two`, whose result stays
inside `int` only for inputs up to 2^30, and the minutes-and-seconds
formatting of the time, whose float-to-int cast is undefined outside `int`.
Overflow elsewhere (the statistics' `+=` and sscanf's conversions) is not
modelled and is listed under Left out.

## Model

| member | source | states |
|---|---|---|
| Drawing.CulledIffOffScreen | src/video/drawing_context.cpp:86-90 | The cull test drops a surface exactly when no point of its rectangle lies on the 800x600 screen. |
| Drawing.Culled | src/video/drawing_context.cpp:86-90 | The cull test as written: right of or below the screen, or ending left of or above it. `CulledIffOffScreen` shows it holds exactly when the rectangle misses the screen. |
| Drawing.ClipAxis | src/video/drawing_context.cpp:131-144 | Clipping a negative position moves the source by the same amount and shrinks the size, so the far edge and the source/destination offset are kept and the position becomes 0. The part is dropped exactly when nothing is left. |
| Drawing.Faded | src/video/drawing_context.cpp:213-215 | The stored fill colour keeps red, green and blue, and its alpha is the colour's alpha times the transform's alpha. |
| Drawing.DrawingContext.constructor | src/video/drawing_context.cpp:46-65 | Starts with empty queues, target screen, identity transform, empty stacks and white ambient. The lightmap is a quarter of the screen, backed by a texture of next-power-of-two size registered with the texture manager. |
| Drawing.DrawingContext.Destroy | src/video/drawing_context.cpp:67-73 | Removes the lightmap texture from the manager's registered set and changes nothing else in the manager. |
| Drawing.DrawingContext.DrawSurface | src/video/drawing_context.cpp:76-102 | A culled surface changes nothing. Otherwise exactly one request is appended to the queue of the current target. It carries the transformed position, the layer, the current effect and alpha, and the surface data. Transform and stacks are kept. |
| Drawing.DrawingContext.DrawSurfaceAt | src/video/drawing_context.cpp:105-109 | The short form is the full form with angle 0, white and the default blend. |
| Drawing.DrawingContext.DrawSurfacePart | src/video/drawing_context.cpp:112-148 | Appends one request with the clipped position, source and size on both axes, or nothing when either axis clips away. |
| Drawing.DrawingContext.DrawText | src/video/drawing_context.cpp:151-169 | Appends one text request at the transformed position with the current effect and alpha. |
| Drawing.DrawingContext.DrawCenterText | src/video/drawing_context.cpp:172-177 | Appends the text request centred: shifted by half the screen width, aligned centre. |
| Drawing.DrawingContext.DrawGradient | src/video/drawing_context.cpp:180-197 | Appends one gradient request at the origin with the given colours and layer. |
| Drawing.DrawingContext.DrawFilledRect | src/video/drawing_context.cpp:200-219 | Appends one fill request at the transformed corner with the faded colour. |
| Drawing.DrawingContext.DrawFilledRectangle | src/video/drawing_context.cpp:222-241 | The same for a rectangle: its top-left corner and its size. |
| Drawing.DrawingContext.GetLight | src/video/drawing_context.cpp:244-260 | With white ambient, writes white and queues nothing. Otherwise writes nothing yet and appends one get-light request at LAYER_GUI to the lightmap queue, whatever the target. The screen queue is never touched. |
| Drawing.DrawingContext.HandleDrawingRequests | src/video/drawing_context.cpp:555-593 | The dispatch order equals `SortByLayer` of the queue: sorted by layer, a permutation of the queue, and on every layer in submission order. |
| Drawing.DrawingContext.DoDrawing | src/video/drawing_context.cpp:476-552 | Clears both stacks and empties the screen queue. Under non-white ambient it appends exactly one lightmap request at LAYER_HUD-1 through the current target's queue. Under OpenGL it first dispatches and clears the lightmap queue. The dispatch order is spelled out per target. |
| Drawing.DrawingContext.PushTransform | src/video/drawing_context.cpp:596-599 | Pushes the current transform and changes nothing else. |
| Drawing.DrawingContext.PopTransform | src/video/drawing_context.cpp:602-608 | Restores the top of the stack and pops it. An empty stack is the source's assertion, here a precondition. |
| Drawing.DrawingContext.PushSetPopTransform | src/video/drawing_context.cpp:596-632 | Push, set alpha and effect, then pop restores the exact prior transform and stack. |
| Drawing.DrawingContext.SetDrawingEffect | src/video/drawing_context.cpp:611-620 | After setting, reading the effect gives it back; only the transform's effect changes. |
| Drawing.DrawingContext.SetAlpha | src/video/drawing_context.cpp:623-632 | After setting, reading alpha gives it back; only the transform's alpha changes. |
| Drawing.DrawingContext.PushTarget | src/video/drawing_context.cpp:635-638 | Pushes the current target and changes nothing else. |
| Drawing.DrawingContext.PopTarget | src/video/drawing_context.cpp:641-645 | Restores the pushed target and pops it; the queues are untouched. |
| Drawing.DrawingContext.SetTarget | src/video/drawing_context.cpp:648-655 | The lightmap target routes later submissions to the lightmap queue and any other target to the screen queue. Queued requests are untouched. |
| Drawing.DrawingContext.SetAmbientColor | src/video/drawing_context.cpp:658-661 | Sets the ambient colour and nothing else. |
| Requests.Transform.Apply | src/video/drawing_context.cpp:85 | Applying the transform and adding the translation back gives the world position. |
| Requests.SortByLayerPermutes | src/video/drawing_context.cpp:557 | The stable sort is a permutation of the queue. |
| Requests.Insert | src/video/drawing_context.cpp:557 | Placing one request behind every request whose layer is not higher yields a queue one longer; it permutes, keeps the order and keeps each layer's order (`InsertPermutes`, `InsertSorted`, `InsertOnLayer`). |
| Requests.SortByLayer | src/video/drawing_context.cpp:557 | The order `std::stable_sort` leaves the queue in has the queue's length; the lemmas below show it is sorted, a permutation and stable. |
| Requests.SortByLayerSorted | src/video/drawing_context.cpp:557 | The stable sort orders requests by layer. |
| Requests.SortByLayerStable | src/video/drawing_context.cpp:557 | On every layer, the requests keep their submission order. |
| Requests.SortByLayerKeepsSorted | src/video/drawing_context.cpp:557 | An already ordered queue is left as it is. |
| Requests.InsertStep | src/video/drawing_context.cpp:557 | One step of the in-place sort inserts the next request into the sorted prefix, after every request whose layer is not higher. |
| Requests.StableSort | src/video/drawing_context.cpp:557 | The array ends equal to `SortByLayer` of its old contents. |
| Surfaces.DrawingEffect.Index | src/video/surface.hpp:35-43 | Every effect has a cache slot below NUM_EFFECTS. |
| Surfaces.EffectIndexInjective | src/video/surface.hpp:35-43 | Distinct effects have distinct cache slots. |
| Surfaces.FlippedTwice | src/video/surface.cpp:186-198 | Flipping a region twice restores it, and flipping keeps the backend and the size. |
| Surfaces.Flipped | src/video/surface.cpp:186-198 | `hflip`: on OpenGL the left and right UVs swap, on SDL the flip flag toggles; `FlippedTwice` shows it is an involution that keeps the size. |
| Surfaces.EffectiveEffect | src/video/surface.cpp:670 | A flipped surface is drawn with the horizontal flip; otherwise the requested effect is used. |
| Surfaces.ScaleRatio | src/video/surface.cpp:672-685 | The ratio is positive and equals the smaller of the two stretch factors, window size over logical screen size. |
| Surfaces.SourceOffsetMirrors | src/video/surface.cpp:706-709 | A flipped offset mirrors the region inside the texture: texture extent minus the far edge. |
| Surfaces.SourceOffset | src/video/surface.cpp:706-709 | An unflipped blit reads from the region's own offset; a flipped one from the mirrored offset (`SourceOffsetMirrors`). |
| Surfaces.LargeWindowReadsPastEdge | src/video/surface.cpp:672-685 | A 1600x1200 window gives the ratio 1200/600, under which the bilinear kernel reads outside every source buffer. |
| Surfaces.ToWindow | src/video/surface.cpp:714-721 | Scaling a rectangle coordinate to the window truncates the exact product. At ratio 1 an integral value is kept. |
| Surfaces.Surface.FromFile | src/video/surface.cpp:41-71 | Takes a reference to the image texture. The region is the whole image: UVs on OpenGL, or offset (0,0), the image size and no flip on software. The cache is empty. |
| Surfaces.Surface.SubRect | src/video/surface.cpp:73-105 | Takes a reference. The region is the given rectangle: UV fractions of the texture on OpenGL, or offset (x,y), size (w,h) and no flip on software. |
| Surfaces.Surface.Copy | src/video/surface.cpp:107-136 | Shares the other surface's texture with one more reference and copies its region, with an empty cache. |
| Surfaces.Surface.Assign | src/video/surface.cpp:139-171 | Takes a reference to the other texture before dropping its own. Self-assignment keeps the count; otherwise the new texture gains one and the old loses one. The region is copied and the software cache is cleared. |
| Surfaces.Surface.Destroy | src/video/surface.cpp:173-183 | Drops one texture reference and one reference of every cached buffer. |
| Surfaces.Surface.HFlip | src/video/surface.cpp:186-198 | Swaps the UV edges on OpenGL or toggles the flip flag on software, keeping width and height. |
| Surfaces.Surface.Width | src/video/surface.hpp:103-115 | The logical width of the OpenGL region, or the software region's width. |
| Surfaces.Surface.Height | src/video/surface.hpp:117-131 | The logical height of the OpenGL region, or the software region's height. |
| Surfaces.Surface.Size | src/video/surface.hpp:134-135 | The size is (width, height). |
| Surfaces.Surface.FillScaled | src/video/surface.cpp:688-690 | Fills the unflipped slot with the scaled buffer when it is empty, and keeps a filled slot. |
| Surfaces.Surface.FillFlipped | src/video/surface.cpp:691-699 | Fills an empty flip slot with the mirror of the unflipped buffer. |
| Surfaces.Surface.FillTransform | src/video/surface.cpp:687-704 | The slot for the effect ends filled. No filled slot is replaced, the other slots are kept, and each new buffer is the scaled or mirrored image. |
| Surfaces.Surface.DrawPart | src/video/surface.cpp:664-724 | With no pixel buffer it blits nothing and leaves the cache alone. Otherwise it blits the cached buffer for the effective effect from the flipped source offset, scaled to the window. Each cache slot is filled at most once, with the bilinear scale or its mirror. |
| Kernels.PixelBuffer.constructor | src/video/surface.cpp:417 | A new buffer has the requested size, depth and one reference. |
| Kernels.MirrorRowsTwice | src/video/surface.cpp:585-606 | Mirroring every row twice gives the original pixels. |
| Kernels.MirrorColumnsTwice | src/video/surface.cpp:608-629 | Mirroring the rows' order twice gives the original pixels. |
| Kernels.HorzFlip | src/video/surface.cpp:585-606 | A fresh buffer of the same size and depth in which pixel (x,y) is the source's (w-1-x,y). |
| Kernels.VertFlip | src/video/surface.cpp:608-629 | A fresh buffer of the same size and depth in which pixel (x,y) is the source's (x,h-1-y). |
| Kernels.Merge | src/video/surface.cpp:400-406 | The weighted mean of two channels lies between them, and the end weights give either channel. |
| Kernels.MergeRgba | src/video/surface.cpp:400-406 | Each of the four channels of the merged pixel lies between the two inputs' channels, and the end weights give either pixel. |
| Kernels.BilinearAt | src/video/surface.cpp:408-433 | The kernel as written: reads (x,y), (x+1,y), (x,y+1) and (x+1,y+1), so it is defined only where those reads are inside the buffer (`DoublingReadsPastEdge` shows an input where they are not). |
| Kernels.ClampedBilinearAt | src/video/surface.cpp:421-433 | The corrected kernel: the neighbour reads are clamped to the last column and row; `ClampedAgreesInBounds` and `BilinearWithinNeighbours` relate it to the kernel as written and to its inputs. |
| Kernels.DoublingReadsPastEdge | src/video/surface.cpp:421-427 | Under the ratio 1200/600 the kernel's x+1 read of the last column falls outside any buffer, as written. |
| Kernels.HalvingReadsInBounds | src/video/surface.cpp:421-427 | Under the ratio 1/2 all reads of the kernel, as written, stay inside the buffer. |
| Kernels.NextIndex | src/video/surface.cpp:425-427 | The neighbour index of the corrected kernel is the next one, clamped to the last. |
| Kernels.ClampedAgreesInBounds | src/video/surface.cpp:370-398 | Where the reads as written are in bounds, the clamped kernel gives the same pixel as the one written. |
| Kernels.SourceIndexInside | src/video/surface.cpp:419-422 | Every destination column and row maps to a source column and row inside the buffer. |
| Kernels.BilinearWithinNeighbours | src/video/surface.cpp:400-433 | Each of the four channels of a scaled pixel lies between the smallest and the largest value of that channel among the four source pixels it reads. |
| Kernels.BlendPixel | src/video/surface.cpp:421-433 | One destination pixel is the clamped bilinear blend of its source neighbours. |
| Kernels.ScaleRow | src/video/surface.cpp:420-458 | A row of the destination is the blend of its source pixels, and earlier rows are kept. |
| Kernels.Scale | src/video/surface.cpp:408-462 | When numerator equals denominator, the source itself with one more reference. Otherwise a fresh buffer of the scaled size whose every pixel is the bilinear blend. |
| Pow2.BitAndPredecessor | src/video/texture.cpp:29-32 | For a positive power of two, v & (v-1) is 0. |
| Textures.IsPowerOf2Exactly | src/video/texture.cpp:29-32 | The bit test accepts exactly 0 and the powers of two. |
| Textures.IsPowerOf2 | src/video/texture.cpp:29-32 | The bit test `v & (v-1)`; `IsPowerOf2Exactly` shows it accepts exactly 0 and the powers of two. |
| Textures.ImageCheck | src/video/texture.cpp:79-82 | A non-power-of-two size is reported before a bad colour depth; only 24 and 32 bits pass. |
| Textures.Texture.constructor | src/video/texture.hpp:40-55 | The storage is the backend's variant: a handle and a size on OpenGL, a pixel buffer on software. |
| Textures.Texture.Handle | src/video/texture.hpp:63-66 | Reading the handle needs OpenGL and gives the stored handle. |
| Textures.Texture.SetHandle | src/video/texture.hpp:68-71 | Setting a handle then reading it gives it back; the size is kept. |
| Textures.Texture.Surface | src/video/texture.hpp:74-80 | Reading the buffer needs software and gives the stored buffer. |
| Textures.Texture.SetSurface | src/video/texture.hpp:82-88 | Setting a buffer then reading it gives it back. |
| Textures.Texture.Width | src/video/texture.hpp:90-102 | The stored OpenGL width, or the buffer's width. |
| Textures.Texture.Height | src/video/texture.hpp:104-116 | The stored OpenGL height, or the buffer's height. |
| Textures.NewSizedTexture | src/video/texture.cpp:35-70 | On OpenGL it records the handle and the given size, or fails after deleting the handle. On software the buffer is null. |
| Textures.NewImageTexture | src/video/texture.cpp:73-123 | Fails with the image check's error, or on OpenGL with an upload failure after deleting the handle. Otherwise it holds the image size or the display-formatted buffer. |
| Textures.ImageTexture.UvRight | src/video/surface.cpp:53 | The right UV edge is the image's share of the padded width, between 0 and 1. |
| Textures.ImageTexture.UvBottom | src/video/surface.cpp:54 | The bottom UV edge is the image's share of the padded height, between 0 and 1. |
| TextureManagement.NextPowerOfTwo | src/video/texture_manager.cpp:91-97 | The smallest power of two not below the value, and 1 for values up to 1. The same loop is `next_po2` in src/video/drawing_context.cpp:37-44, which sizes the lightmap texture. |
| TextureManagement.TextureManager.constructor | src/video/texture_manager.cpp:39-41 | The cache, the registered set and the saved list start empty. |
| TextureManagement.TextureManager.CreateImageTexture | src/video/texture_manager.cpp:100-142 | Throws "could not load" for a missing image, out of memory when the buffer cannot be allocated, and the texture's error on upload failure, and succeeds otherwise. The texture is padded to next powers of two, and the image size is kept unpadded. |
| TextureManagement.TextureManager.Get | src/video/texture_manager.cpp:55-70 | A cached normalised path returns the cached object and changes nothing. Otherwise it creates the texture, stores it under the normalised path and returns it; a failed load caches nothing and passes on the error `create_image_texture` raised: could-not-load with the normalised path, out of memory, or the texture's upload failure. |
| TextureManagement.TextureManager.Release | src/video/texture_manager.cpp:73-77 | Erases exactly the texture's file name from the cache. |
| TextureManagement.TextureManager.RegisterTexture | src/video/texture_manager.cpp:80-83 | Adds the texture to the registered set and changes nothing else. |
| TextureManagement.TextureManager.RemoveTexture | src/video/texture_manager.cpp:86-89 | Removes the texture from the registered set and changes nothing else. |
| TextureManagement.TextureManager.SaveTexture | src/video/texture_manager.cpp:167-211 | Appends one saved entry for the texture; on OpenGL its handle becomes 0 and every other texture is untouched. |
| TextureManagement.AfterSaveAllTwice | src/video/texture_manager.cpp:157-163 | Saving one set and then another leaves the storage that saving their union does. |
| TextureManagement.AfterSaveTwice | src/video/texture_manager.cpp:201-206 | Saving a texture twice is saving it once. |
| TextureManagement.TextureManager.SaveRegisteredTextures | src/video/texture_manager.cpp:157-159 | Appends one entry per registered texture and saves exactly those. |
| TextureManagement.TextureManager.SaveCachedTextures | src/video/texture_manager.cpp:160-163 | Appends one entry per cached image texture and saves exactly those. |
| TextureManagement.TextureManager.SaveTextures | src/video/texture_manager.cpp:145-164 | The saved list grows by the registered textures, then by the cached ones. Exactly those lose their OpenGL handle, and the cache and the set are unchanged. |
| TextureManagement.ReloadStep | src/video/texture_manager.cpp:225-256 | Reloading one more entry changes only the texture it names. |
| TextureManagement.LastHandle | src/video/texture_manager.cpp:225-256 | A saved texture ends with the handle generated for the last entry naming it. |
| TextureManagement.TextureManager.ReloadTextures | src/video/texture_manager.cpp:214-257 | On OpenGL every saved texture gets the handle of its last entry and others are kept; on software nothing changes. The saved list ends empty. |
| TextureManagement.TextureManager.RestoreHandles | src/video/texture_manager.cpp:224-251 | Walking the saved list in order, each entry's texture receives the next generated handle, so every texture ends with the handle of its last entry and textures with no entry keep their storage; the manager stays valid. |
| TextureManagement.TextureManager.Destroy | src/video/texture_manager.cpp:43-52 | Warns exactly once for every image texture still in the cache. |
| Stats.Merged | src/statistics.cpp:274-285 | Against an invalid record nothing changes. Otherwise it keeps the larger coins, badguys and secrets and the smaller time, and takes the other's totals. |
| Stats.MergedIdempotent | src/statistics.cpp:274-285 | Merging a record into itself, or the same record twice, changes nothing more. |
| Stats.MergedOrderIndependent | src/statistics.cpp:274-285 | The best results do not depend on the order of merging. |
| Stats.AddCount | src/statistics.cpp:290-296 | A sentinel is skipped; any other value is added. |
| Stats.Accumulated | src/statistics.cpp:287-298 | Against an invalid record nothing changes; the flag and the display index are kept. |
| Stats.AccumulatedFreshIsNeutral | src/statistics.cpp:287-298 | Adding a never-played record changes nothing. |
| Stats.AccumulatedCommutes | src/statistics.cpp:287-298 | Adding two records gives the same result in either order. |
| Stats.AccumulatedOntoFreshKeepsSentinelBase | src/statistics.cpp:287-298 | Adding onto a fresh record starts from INT_MIN, not 0. |
| Stats.NextDisplayStat | src/statistics.cpp:140-141 | The displayed statistic steps 0, 1, 2, 3 and wraps to 0, staying in 0..3. |
| Stats.DisplayStatCycles | src/statistics.cpp:140-141 | Four steps return to the same statistic. |
| Stats.CDiv | src/statistics.cpp:123-124 | C division truncates toward zero: for a non-negative dividend the quotient times the divisor is at most the dividend and within one divisor of it; for a negative one it is at least the dividend and within one divisor of it. |
| Stats.CRem | src/statistics.cpp:124 | C remainder: quotient times divisor plus remainder is the dividend, with the dividend's sign. |
| Stats.FormatTimeBounds | src/statistics.cpp:122-125 | For a non-negative time the seconds are 0..59, and minutes and seconds give the time to within a second. |
| Stats.FormatTime | src/statistics.cpp:122-125 | Minutes and seconds of the truncated centiseconds with C division: for a non-negative time both are non-negative and the seconds are 0..59; for a negative time both are non-positive and the seconds are -59..0. |
| Stats.Statistics.constructor | src/statistics.cpp:42 | Every statistic starts as its sentinel; the record is valid and shows the first statistic. |
| Stats.Statistics.Reset | src/statistics.cpp:265-272 | Zeroes coins, badguys, time and secrets and keeps the totals and the flags. |
| Stats.Statistics.Merge | src/statistics.cpp:274-285 | The new record is `Merged` of the two. |
| Stats.Statistics.AddAssign | src/statistics.cpp:287-298 | The new record is `Accumulated` of the two. |
| Stats.Statistics.DeclareInvalid | src/statistics.cpp:300-303 | Clears the flag and nothing else. |
| Stats.Statistics.AdvanceDisplayStat | src/statistics.cpp:86-142 | A never-played record (coins still INT_MIN) or an invalid one returns before the cycle and nothing changes; with the timer running nothing changes either; otherwise the next statistic is selected, staying within 0..3. |
| CommandLine.PreParseCommandline | src/main.cpp:226-241 | Returns true exactly when an argument after the program name is "--help" or "--version". |
| CommandLine.ScanIntDecimal | src/main.cpp:260-261 | `%d` reads back a printed number and stops right after it. |
| CommandLine.ScanInt | src/main.cpp:260-261 | One `%d` conversion: white space, an optional sign and at least one digit; when it converts it stops past its start and inside the string. |
| CommandLine.ScanIntDigits | src/main.cpp:260-261 | A run of digits followed by a non-digit or the end converts to the number it spells and stops right after it. |
| CommandLine.GeometryRoundTrip | src/main.cpp:260-261 | "WxH" written in decimal scans as both numbers. |
| CommandLine.ScanGeometry | src/main.cpp:260-261 | `sscanf(arg, "%dx%d")`: the second number is converted only when the first was; "WxH" converts both (`GeometryRoundTrip`). |
| CommandLine.GeometryOfDigits | src/main.cpp:260-261 | Two runs of digits joined by 'x' convert to the two numbers they spell. |
| CommandLine.StepFor | src/main.cpp:250-291 | One iteration consumes one argument, or two for an option with a parameter. It never goes more than one past the end and goes past it only when throwing. |
| CommandLine.Classify | src/main.cpp:251-291 | The comparison chain: an argument is taken for the start level exactly when it does not start with '-', and an unknown option always starts with '-'. |
| CommandLine.ParseFrom | src/main.cpp:248-292 | The loop as a function: steps as `StepFor` says until the arguments run out or a step throws; `ParseCommandline` is proved to end as it does and `ParseFromAppend` composes it. |
| CommandLine.ParseCommandline | src/main.cpp:246-295 | The configuration ends as `ParseFrom` leaves it, including the fields set before a throw. It throws exactly the error `ParseFrom` reports, and otherwise returns false. |
| CommandLine.ApplyOption | src/main.cpp:250-291 | The loop body applies one argument as `StepFor` says. |
| CommandLine.ApplyFlag | src/main.cpp:251-291 | An option without a parameter sets its field, a plain argument the start level, and an unknown one nothing. |
| CommandLine.ApplyDisplayFlag | src/main.cpp:251-268 | -f/-w set fullscreen or windowed, --show-fps and --console set their flags. |
| CommandLine.ApplyParameterOption | src/main.cpp:255-284 | An option with a parameter throws when none follows, and otherwise consumes it. A malformed geometry throws after storing what was converted. |
| CommandLine.ScanInto | src/main.cpp:260-261 | sscanf stores what it converted and reports whether both numbers were read. |
| CommandLine.ParseFromAppend | src/main.cpp:248-292 | Parsing continues from where a prefix that parsed without error left off. |
| CommandLine.LastScreenModeWins | src/main.cpp:251-254 | The last of -f/--fullscreen and -w/--window decides the screen mode. |
| CommandLine.LastStartLevelWins | src/main.cpp:287-288 | The last plain argument becomes the start level. |
| CommandLine.UnknownOptionIgnored | src/main.cpp:289-291 | An unknown option changes nothing. |
| CommandLine.MissingParameterThrows | src/main.cpp:255-284 | --geometry, --play-demo or --record-demo as the last argument throws its error and changes nothing. |
| CommandLine.GeometrySetsScreenSize | src/main.cpp:255-264 | A well-formed geometry sets both screen dimensions. |
| CommandLine.BadGeometryThrows | src/main.cpp:260-263 | A malformed geometry throws after storing what sscanf converted. |
| CommandLine.DemoConsumesFileName | src/main.cpp:273-284 | --play-demo and --record-demo take the next argument as their file name. |
| CommandLine.DemoOptionConsumesFileName | src/main.cpp:273-284 | After an error-free prefix, --play-demo or --record-demo followed by a name sets the start or record demo to that name and ends the parse without error. |
| CommandLine.ArchiveNames | src/main.cpp:127-130 | Every name ending in "." and "zip" in any case is an archive; "zip" alone and ".zip.txt" are not. |
| CommandLine.IsArchiveName | src/main.cpp:127-130 | Longer than "zip", a '.' before the last three characters, and those three equal to "zip" ignoring case; `ArchiveNames` shows which names pass. |
| CommandLine.FindArchives | src/main.cpp:121-138 | Returns the archive names of the listing in listing order: every archive, and nothing else. |
| CommandLine.ArchivesOfMembers | src/main.cpp:126-138 | A name is among the archives of a listing exactly when it is listed and is an archive name. |
| CommandLine.FirstScreen | src/main.cpp:510-539 | No start level gives the title screen. A level longer than four characters ending in ".stwm" gives a world map; any other level gives a game session on it. |
| CommandLine.WorldMapSuffix | src/main.cpp:516-517 | Any path ending in ".stwm" starts a world map, and one ending in ".stw" starts a game session. |

## Left out

- OpenGL and SDL drawing: `intern_draw`, the rotation, UV drawing, gradients, `glReadPixels`, the blits and the buffer swap. A blit becomes a record of what would be blitted, and a dispatch becomes the ordered list of requests.
- Floating point: positions, alpha and colours are reals. Float rounding, the `xfactor`/`yfactor` comparison and the float-to-int casts are exact truncations of reals.
- Pixel formats, SDL_MapRGBA and SDL_GetRGBA packing, pitch and locking: pixels are RGBA records in a two-dimensional array.
- The NAIVE and BRESENHAM variants of `scale`, which are compiled out.
- The software `get_light` placeholder in the dispatch, and the dispatch draw functions themselves.
- Image decoding, `SDL_CreateRGBSurface`, `SDL_DisplayFormatAlpha`, `glGenTextures` and path normalisation. They are parameters: an `ImageLoad` record, the handles, and a `normalize` function.
- Pixel data that save/reload reads back and re-uploads. Only the saved list and the handles are modelled.
- The order `std::set` and `std::map` iterate in: the save loops take the elements in an arbitrary order. Only the set of textures saved is stated.
- `HAVE_OPENGL` is taken as defined. The runtime backend choice is the `useOpengl` flag.
- The constants of headers that are not part of this model (`LAYER_HUD` = 500, `LAYER_GUI` = 600, the default blend 0x0302/0x0303) are assumed, and so are the defaults a `DrawingRequest` is constructed with (`NO_EFFECT` and alpha 1), which the get-light and lightmap requests rely on. `DrawingRequest::operator<`, which the `std::stable_sort` of the dispatch uses, is assumed to compare layers. `ImageTexture::get_uv_right` and `get_uv_bottom` are assumed to be the image size over the texture size. `Transform::apply` is assumed to subtract the translation.
- Drawing.DrawingContext.constructor: the lightmap texture's upload is assumed to succeed. In the source, `new Texture(width, height, GL_RGB)` can throw out of the constructor after deleting its handle, where a DEBUG build's `assert_gl` reports a GL error.
- The target of a fresh drawing context is left uninitialised by its constructor; the model starts it at the screen target.
- Surfaces.Surface.Assign: it clears the software cache without releasing the cached buffers, as the source does; the model does not track the leaked buffers.
- Surfaces.Surface.DrawPart: the default branch for an effect outside the enum cannot occur with the three-valued `DrawingEffect` and is not modelled.
- Drawing.DrawingContext.DoDrawing: on the software path, or with white ambient, the lightmap queue is not cleared, as in the source. The model keeps it; it does not add a clearing the source lacks.
- Stats.Statistics.AddAssign: 32-bit wrap-around of the counts is not modelled, because the counts are unbounded integers.
- Statistics' Lisp reading and writing and the text layout of its draw functions: these are I/O and drawing calls. The time arithmetic and the display cycle are modelled.
- CommandLine.ScanInto: values too large for `int` are not modelled (sscanf's behaviour there is undefined). The scanned numbers are unbounded.
- `print_usage`, the version text and the warning log line: output only.
- The directory mounting of the start level (`dirname`, `basename`) and the demo and random-seed set-up of the game session.
- The last reference of an image texture evicting it from the cache is in `image_texture.hpp`, which is not part of this model. `Unref` only decrements.
- Differences from the design description, where the model follows the code:
  - `get_light` uses LAYER_GUI, not a layer above all others.
  - `do_drawing` clears both stacks instead of requiring them empty.
  - The lightmap composite goes through the current target's queue, not always the screen queue.
  - `Surface::operator=` takes the new reference before dropping the old one.
- The bilinear `scale` is modelled with its edge reads clamped; see Findings.

## Findings

| source | as written | input that shows it | evidently intended | confidence | as-written member | corrected member |
|---|---|---|---|---|---|---|
| src/video/surface.cpp:408-462 | The bilinear `scale` reads the neighbours at srcx+1 and srcy+1 through `getpixel` (370-398), which does not check bounds. | A 1600x1200 window gives the ratio 1200/600 in `draw_part`. The last destination column 2w-1 of a w-wide surface then reads source column w, one past the edge; the last row does the same. | The neighbour reads stay inside the source: at the last column or row the kernel uses that column or row again. | medium, not executed | Kernels.BilinearAt, Surfaces.LargeWindowReadsPastEdge | Kernels.Scale, Kernels.ClampedAgreesInBounds |
