/** The SDL_Renderer backend (demo/sdl/raw_renderer/nuklear_sdl_renderer.h):
    walking Nuklear's converted draw commands, giving each drawn command its
    slice of the index buffer, clamping clip rectangles to the viewport, and
    the backend's global state from init to shutdown.

    SDL's renderer is the class `Renderer`: its clip state, its viewport and a
    log of the geometry it was asked to draw. Nuklear's conversion is an input
    (`Converted`), and the calls into Nuklear and into SDL's texture and log
    functions are appended to a log on `Backend`. */
module SdlRenderer {
  import opened Base

  /** `sizeof(struct nk_sdl_vertex)`: two floats of position, two of texture
      coordinates and four colour bytes. */
  const VERTEX_SIZE := 20
  // offsetof the position, uv and colour members of `struct nk_sdl_vertex`
  const POSITION_OFFSET := 0
  const UV_OFFSET := 8
  const COLOR_OFFSET := 16
  /** `sizeof(nk_draw_index)`. */
  const INDEX_SIZE := 2
  /** The null `SDL_Texture *`. */
  const NULL: nat := 0

  /** An `SDL_Rect`. */
  datatype Rect = Rect(x: int, y: int, w: int, h: int)

  /** A `struct nk_rect`: Nuklear's clip rectangles are floats. */
  datatype RectF = RectF(x: real, y: real, w: real, h: real)

  /** One `struct nk_draw_command`: how many indices it draws, its clip
      rectangle, and its texture handle. */
  datatype DrawCommand = DrawCommand(elemCount: nat, clipRect: RectF, texture: nat)

  /** What `nk_convert` leaves behind: the draw commands in `dev->cmds`, and
      the size in bytes of the vertex data (`vbuf.needed`). */
  datatype Converted = Converted(commands: seq<DrawCommand>, vertexBytes: nat)

  /** One `SDL_RenderGeometryRaw` call: the texture, the clip rectangle in
      force, where in a vertex the position, colour and uv are read, the
      stride between vertices and their number, and the slice of the index
      buffer, as an offset in indices from its start, a count and an index size. */
  datatype Draw = Draw(
    texture: nat,
    clip: Option<Rect>,
    positionOffset: int,
    colorOffset: int,
    uvOffset: int,
    stride: int,
    vertexCount: nat,
    indexOffset: nat,
    indexCount: nat,
    indexSize: int)

  datatype AntiAliasing = AntiAliasingOff | AntiAliasingOn

  /** The Nuklear buffers the backend names. */
  datatype Buffer = Cmds | Vbuf | Ebuf

  /** A call into Nuklear, or into SDL's texture and log functions. */
  datatype Call =
    | NkInitDefault
    | NkBufferInitDefault(buffer: Buffer)
    | NkConvert(shapeAA: AntiAliasing, lineAA: AntiAliasing)
    | NkClear
    | NkBufferClear(buffer: Buffer)
    | NkBufferFree(buffer: Buffer)
    | NkFontAtlasClear
    | NkFree
    | SdlCreateTexture(width: int, height: int)
    | SdlUpdateTexture(texture: nat, image: seq<Byte>, pitch: int)
    | SdlSetTextureBlendMode(texture: nat)
    | SdlDestroyTexture(texture: nat)
    | SdlLog(message: string)

  /** `(int)` of every member of a Nuklear rectangle. */
  function Truncated(c: RectF): Rect
  {
    Rect(Trunc(c.x), Trunc(c.y), Trunc(c.w), Trunc(c.h))
  }

  /** The clamp of `NK_SDL_CLAMP_CLIP_RECT`: negative origins move to zero,
      shrinking the size by as much, and the size is capped at the viewport's. */
  function Clamp(t: Rect, viewport: Rect): (r: Rect)
    ensures 0 <= r.x && 0 <= r.y && r.w <= viewport.w && r.h <= viewport.h
    ensures r.x == Max(t.x, 0) && r.y == Max(t.y, 0)
    // the right and bottom edges stay where they were unless the size is capped
    ensures r.w == Min(t.x + t.w - r.x, viewport.w)
    ensures r.h == Min(t.y + t.h - r.y, viewport.h)
    // a rectangle that already satisfies the bounds is left alone
    ensures 0 <= t.x && 0 <= t.y && t.w <= viewport.w && t.h <= viewport.h ==> r == t
  {
    var a := if t.x < 0 then t.(w := t.w + t.x, x := 0) else t;
    var b := if a.y < 0 then a.(h := a.h + a.y, y := 0) else a;
    var c := if b.h > viewport.h then b.(h := viewport.h) else b;
    if c.w > viewport.w then c.(w := viewport.w) else c
  }

  /** The clip rectangle set for a command: the command's own rectangle
      converted to integers, then clamped when `clampTo` holds a viewport
      (the backend was built with `NK_SDL_CLAMP_CLIP_RECT`). */
  function ClipFor(clip: RectF, clampTo: Option<Rect>): (r: Rect)
    // without the clamp: every member is the float's with the fraction dropped toward zero
    ensures clampTo.None? ==>
              TowardZero(clip.x, r.x) && TowardZero(clip.y, r.y) && TowardZero(clip.w, r.w) && TowardZero(clip.h, r.h)
    // with it: a non-negative origin and a size at most the viewport's ...
    ensures clampTo.Some? ==>
              0 <= r.x && 0 <= r.y && r.w <= clampTo.value.w && r.h <= clampTo.value.h
    // ... keeping the truncated right and bottom edges until the size is capped
    ensures clampTo.Some? ==>
              r.x == Max(Trunc(clip.x), 0) && r.y == Max(Trunc(clip.y), 0)
              && r.w == Min(Trunc(clip.x) + Trunc(clip.w) - r.x, clampTo.value.w)
              && r.h == Min(Trunc(clip.y) + Trunc(clip.h) - r.y, clampTo.value.h)
  {
    match clampTo
    case None => Truncated(clip)
    case Some(viewport) => Clamp(Truncated(clip), viewport)
  }

  /** The draw made for a command whose indices start at `offset`. */
  function DrawOf(cmd: DrawCommand, offset: nat, clampTo: Option<Rect>, vertexCount: nat): Draw
  {
    Draw(cmd.texture, Some(ClipFor(cmd.clipRect, clampTo)), POSITION_OFFSET, COLOR_OFFSET, UV_OFFSET,
         VERTEX_SIZE, vertexCount, offset, cmd.elemCount, INDEX_SIZE)
  }

  /** The number of indices a list of commands uses. */
  function ElemSum(cmds: seq<DrawCommand>): nat
  {
    if cmds == [] then 0 else ElemSum(cmds[..|cmds| - 1]) + cmds[|cmds| - 1].elemCount
  }

  /** The number of indices a list of draws uses. */
  function IndexSum(draws: seq<Draw>): nat
  {
    if draws == [] then 0 else IndexSum(draws[..|draws| - 1]) + draws[|draws| - 1].indexCount
  }

  /** The commands that draw something, in order. */
  function NonEmpty(cmds: seq<DrawCommand>): (r: seq<DrawCommand>)
  {
    if cmds == [] then []
    else NonEmpty(cmds[..|cmds| - 1]) + (if cmds[|cmds| - 1].elemCount == 0 then [] else [cmds[|cmds| - 1]])
  }

  /** The draws the walk over `cmds` makes: an empty command is skipped, and
      every other one draws with the index offset reached so far. */
  function Walk(cmds: seq<DrawCommand>, clampTo: Option<Rect>, vertexCount: nat): (draws: seq<Draw>)
  {
    if cmds == [] then []
    else
      var n := |cmds| - 1;
      Walk(cmds[..n], clampTo, vertexCount)
        + (if cmds[n].elemCount == 0 then [] else [DrawOf(cmds[n], ElemSum(cmds[..n]), clampTo, vertexCount)])
  }

  /** Empty commands add no indices. */
  lemma {:induction false} ElemSumNonEmpty(cmds: seq<DrawCommand>)
    ensures ElemSum(NonEmpty(cmds)) == ElemSum(cmds)
  {
    if cmds != [] {
      var n := |cmds| - 1;
      ElemSumNonEmpty(cmds[..n]);
      var last := if cmds[n].elemCount == 0 then [] else [cmds[n]];
      assert NonEmpty(cmds) == NonEmpty(cmds[..n]) + last;
      ElemSumAppend(NonEmpty(cmds[..n]), last);
    }
  }

  lemma {:induction false} ElemSumAppend(s: seq<DrawCommand>, t: seq<DrawCommand>)
    ensures ElemSum(s + t) == ElemSum(s) + ElemSum(t)
  {
    if t != [] {
      var n := |t| - 1;
      assert (s + t)[..|s + t| - 1] == s + t[..n];
      ElemSumAppend(s, t[..n]);
    } else {
      assert s + t == s;
    }
  }

  /** The walk makes one draw per non-empty command, in order: draw k is
      the k-th non-empty command, with its texture, its clip rectangle and its
      index count, starting after the indices of the non-empty commands before it. */
  lemma {:induction false} WalkDrawsNonEmptyCommands(cmds: seq<DrawCommand>, clampTo: Option<Rect>, vertexCount: nat)
    ensures |Walk(cmds, clampTo, vertexCount)| == |NonEmpty(cmds)|
    ensures forall k :: 0 <= k < |NonEmpty(cmds)| ==>
              Walk(cmds, clampTo, vertexCount)[k]
                == DrawOf(NonEmpty(cmds)[k], ElemSum(NonEmpty(cmds)[..k]), clampTo, vertexCount)
  {
    if cmds != [] {
      var n := |cmds| - 1;
      var prefix := cmds[..n];
      WalkDrawsNonEmptyCommands(prefix, clampTo, vertexCount);
      var before := Walk(prefix, clampTo, vertexCount);
      var draws := Walk(cmds, clampTo, vertexCount);
      var nePrefix := NonEmpty(prefix);
      var ne := NonEmpty(cmds);
      if cmds[n].elemCount != 0 {
        var d := DrawOf(cmds[n], ElemSum(prefix), clampTo, vertexCount);
        assert draws == before + [d];
        assert ne == nePrefix + [cmds[n]];
        forall k | 0 <= k < |ne|
          ensures draws[k] == DrawOf(ne[k], ElemSum(ne[..k]), clampTo, vertexCount)
        {
          if k < |nePrefix| {
            assert ne[..k] == nePrefix[..k];
          } else {
            assert ne[..k] == nePrefix;
            ElemSumNonEmpty(prefix);
          }
        }
      } else {
        assert draws == before;
        assert ne == nePrefix;
      }
    }
  }

  /** The draws use consecutive, non-empty slices of the index buffer: the
      first starts at its beginning, each starts where all earlier draws end,
      and together they use exactly the indices of all commands. */
  lemma {:induction false} WalkSlicesAreContiguous(cmds: seq<DrawCommand>, clampTo: Option<Rect>, vertexCount: nat)
    ensures IndexSum(Walk(cmds, clampTo, vertexCount)) == ElemSum(cmds)
    ensures forall k :: 0 <= k < |Walk(cmds, clampTo, vertexCount)| ==>
              Walk(cmds, clampTo, vertexCount)[k].indexCount > 0
    ensures forall k :: 0 <= k < |Walk(cmds, clampTo, vertexCount)| ==>
              Walk(cmds, clampTo, vertexCount)[k].indexOffset == IndexSum(Walk(cmds, clampTo, vertexCount)[..k])
  {
    if cmds != [] {
      var n := |cmds| - 1;
      var prefix := cmds[..n];
      WalkSlicesAreContiguous(prefix, clampTo, vertexCount);
      var before := Walk(prefix, clampTo, vertexCount);
      var draws := Walk(cmds, clampTo, vertexCount);
      if cmds[n].elemCount != 0 {
        var d := DrawOf(cmds[n], ElemSum(prefix), clampTo, vertexCount);
        assert draws == before + [d];
        assert draws[..|draws| - 1] == before;
        forall k | 0 <= k < |draws|
          ensures draws[k].indexCount > 0 && draws[k].indexOffset == IndexSum(draws[..k])
        {
          if k < |before| {
            assert draws[..k] == before[..k];
          } else {
            assert draws[..k] == before;
          }
        }
      } else {
        assert draws == before;
      }
    }
  }

  /** `IndexSum` grows along a list of draws. */
  lemma {:induction false} IndexSumMonotone(draws: seq<Draw>, j: nat, k: nat)
    requires j <= k <= |draws|
    ensures IndexSum(draws[..j]) <= IndexSum(draws[..k])
  {
    if j < k {
      assert draws[..k][..k - 1] == draws[..k - 1];
      IndexSumMonotone(draws, j, k - 1);
    }
  }

  lemma IndexSumStep(draws: seq<Draw>, j: nat)
    requires j < |draws|
    ensures IndexSum(draws[..j + 1]) == IndexSum(draws[..j]) + draws[j].indexCount
  {
    assert draws[..j + 1][..j] == draws[..j];
  }

  /** No two draws share an index, and every slice lies inside the indices
      the commands use. */
  lemma WalkSlicesDisjoint(cmds: seq<DrawCommand>, clampTo: Option<Rect>, vertexCount: nat)
    ensures forall j, k :: 0 <= j < k < |Walk(cmds, clampTo, vertexCount)| ==>
              Walk(cmds, clampTo, vertexCount)[j].indexOffset + Walk(cmds, clampTo, vertexCount)[j].indexCount
                <= Walk(cmds, clampTo, vertexCount)[k].indexOffset
    ensures forall k :: 0 <= k < |Walk(cmds, clampTo, vertexCount)| ==>
              Walk(cmds, clampTo, vertexCount)[k].indexOffset + Walk(cmds, clampTo, vertexCount)[k].indexCount
                <= ElemSum(cmds)
  {
    var draws := Walk(cmds, clampTo, vertexCount);
    WalkSlicesAreContiguous(cmds, clampTo, vertexCount);
    forall j, k | 0 <= j < k < |draws|
      ensures draws[j].indexOffset + draws[j].indexCount <= draws[k].indexOffset
    {
      IndexSumStep(draws, j);
      IndexSumMonotone(draws, j + 1, k);
    }
    forall k | 0 <= k < |draws|
      ensures draws[k].indexOffset + draws[k].indexCount <= ElemSum(cmds)
    {
      IndexSumStep(draws, k);
      IndexSumMonotone(draws, k + 1, |draws|);
      assert draws[..|draws|] == draws;
    }
  }

  /** Inserting an empty command anywhere changes nothing that is drawn. */
  lemma {:induction false} WalkSkipsEmpty(s: seq<DrawCommand>, c: DrawCommand, t: seq<DrawCommand>, clampTo: Option<Rect>, vertexCount: nat)
    requires c.elemCount == 0
    ensures Walk(s + [c] + t, clampTo, vertexCount) == Walk(s + t, clampTo, vertexCount)
    ensures ElemSum(s + [c] + t) == ElemSum(s + t)
  {
    if t == [] {
      assert (s + [c] + t)[..|s|] == s;
      assert s + t == s;
    } else {
      var n := |t| - 1;
      WalkSkipsEmpty(s, c, t[..n], clampTo, vertexCount);
      assert (s + [c] + t)[..|s + [c] + t| - 1] == s + [c] + t[..n];
      assert (s + t)[..|s + t| - 1] == s + t[..n];
    }
  }

  /** Every draw uses the vertex layout and index size of the backend and the
      same vertex count, and, when clamping, a clip rectangle with a
      non-negative origin and a width and height at most the viewport's. The
      clamp does not bound `x + w` or `y + h`, and the size can be negative. */
  lemma WalkDrawsUniform(cmds: seq<DrawCommand>, clampTo: Option<Rect>, vertexCount: nat)
    ensures forall d :: d in Walk(cmds, clampTo, vertexCount) ==>
      && d.positionOffset == POSITION_OFFSET && d.colorOffset == COLOR_OFFSET && d.uvOffset == UV_OFFSET
      && d.stride == VERTEX_SIZE && d.indexSize == INDEX_SIZE && d.vertexCount == vertexCount
      && d.clip.Some?
      && (clampTo.Some? ==>
            0 <= d.clip.value.x && 0 <= d.clip.value.y
            && d.clip.value.w <= clampTo.value.w && d.clip.value.h <= clampTo.value.h)
  {
    WalkDrawsNonEmptyCommands(cmds, clampTo, vertexCount);
  }

  /** SDL's renderer, as far as this backend sees it. */
  class Renderer {
    /** None when clipping is disabled. */
    var clip: Option<Rect>
    var viewport: Rect
    ghost var draws: seq<Draw>

    constructor (viewport: Rect)
      ensures clip == None && this.viewport == viewport && draws == []
    {
      clip := None;
      this.viewport := viewport;
      draws := [];
    }

    /** `SDL_RenderIsClipEnabled`. */
    method IsClipEnabled() returns (enabled: bool)
      ensures enabled <==> clip.Some?
    {
      enabled := clip.Some?;
    }

    /** `SDL_RenderGetClipRect`: the clip rectangle, or an empty one when
        clipping is disabled. */
    method GetClipRect() returns (r: Rect)
      ensures clip.Some? ==> r == clip.value
      ensures clip.None? ==> r == Rect(0, 0, 0, 0)
    {
      r := if clip.Some? then clip.value else Rect(0, 0, 0, 0);
    }

    /** `SDL_RenderGetViewport`. */
    method GetViewport() returns (r: Rect)
      ensures r == viewport
    {
      r := viewport;
    }

    /** `SDL_RenderSetClipRect`: a rectangle enables clipping to it, NULL
        disables clipping. */
    method SetClipRect(r: Option<Rect>)
      modifies this`clip
      ensures clip == r
    {
      clip := r;
    }

    /** `SDL_RenderGeometryRaw`, recorded with the clip rectangle in force. */
    method RenderGeometryRaw(texture: nat, positionOffset: int, colorOffset: int, uvOffset: int,
                             stride: int, vertexCount: nat,
                             indexOffset: nat, indexCount: nat, indexSize: int)
      modifies this`draws
      ensures draws == old(draws) + [Draw(texture, clip, positionOffset, colorOffset, uvOffset, stride,
                                          vertexCount, indexOffset, indexCount, indexSize)]
    {
      draws := draws + [Draw(texture, clip, positionOffset, colorOffset, uvOffset, stride,
                             vertexCount, indexOffset, indexCount, indexSize)];
    }
  }

  /** The clip rectangle for one command, computed in place on a local
      `SDL_Rect` as the backend does. */
  method ClipRectFor(clip: RectF, clampTo: Option<Rect>) returns (r: Rect)
    ensures r == ClipFor(clip, clampTo)
  {
    r := Rect(Trunc(clip.x), Trunc(clip.y), Trunc(clip.w), Trunc(clip.h));
    if clampTo.Some? {
      var viewport := clampTo.value;
      if r.x < 0 {
        r := r.(w := r.w + r.x);
        r := r.(x := 0);
      }
      if r.y < 0 {
        r := r.(h := r.h + r.y);
        r := r.(y := 0);
      }
      if r.h > viewport.h {
        r := r.(h := viewport.h);
      }
      if r.w > viewport.w {
        r := r.(w := viewport.w);
      }
    }
  }

  /** The `nk_draw_foreach` loop of `nk_sdl_render`: skip empty commands,
      set each drawn command's clip rectangle, draw its slice of the index
      buffer and move the running offset past it. */
  method DrawCommands(renderer: Renderer, cmds: seq<DrawCommand>, clampTo: Option<Rect>, vertexCount: nat)
    modifies renderer`clip, renderer`draws
    ensures renderer.draws == old(renderer.draws) + Walk(cmds, clampTo, vertexCount)
    // the clip of the last drawn command stays in force
    ensures Walk(cmds, clampTo, vertexCount) == [] ==> renderer.clip == old(renderer.clip)
    ensures Walk(cmds, clampTo, vertexCount) != [] ==>
              renderer.clip == Walk(cmds, clampTo, vertexCount)[|Walk(cmds, clampTo, vertexCount)| - 1].clip
  {
    var offset: nat := 0;
    var i := 0;
    while i < |cmds|
      invariant 0 <= i <= |cmds|
      invariant offset == ElemSum(cmds[..i])
      invariant renderer.draws == old(renderer.draws) + Walk(cmds[..i], clampTo, vertexCount)
      invariant Walk(cmds[..i], clampTo, vertexCount) == [] ==> renderer.clip == old(renderer.clip)
      invariant Walk(cmds[..i], clampTo, vertexCount) != [] ==>
                  renderer.clip == Walk(cmds[..i], clampTo, vertexCount)[|Walk(cmds[..i], clampTo, vertexCount)| - 1].clip
    {
      var cmd := cmds[i];
      assert cmds[..i + 1][..i] == cmds[..i];
      if cmd.elemCount != 0 {
        var r := ClipRectFor(cmd.clipRect, clampTo);
        renderer.SetClipRect(Some(r));
        renderer.RenderGeometryRaw(cmd.texture, POSITION_OFFSET, COLOR_OFFSET, UV_OFFSET, VERTEX_SIZE,
                                   vertexCount, offset, cmd.elemCount, INDEX_SIZE);
        offset := offset + cmd.elemCount;
      }
      i := i + 1;
    }
    assert cmds[..i] == cmds;
  }

  /** The backend's global `sdl` state. */
  class Backend {
    var win: nat
    var renderer: Renderer?
    var timeOfLastFrame: nat
    /** `nk_init_default` has run on `sdl.ctx`. */
    var ctxInitialized: bool
    /** `sdl.ctx.clip` points at the shim's clipboard copy and paste callbacks. */
    var clipboardHooked: bool
    /** The draw commands in `dev->cmds`. */
    var cmds: seq<DrawCommand>
    /** `dev->font_tex`. */
    var fontTex: nat
    ghost var calls: seq<Call>

    /** Every field of `sdl` is zero. */
    predicate Zeroed()
      reads this
    {
      win == 0 && renderer == null && timeOfLastFrame == 0 && !ctxInitialized
      && !clipboardHooked && cmds == [] && fontTex == NULL
    }

    /** The static `sdl` before anything runs. */
    constructor ()
      ensures Zeroed() && calls == []
    {
      win, renderer, timeOfLastFrame := 0, null, 0;
      ctxInitialized, clipboardHooked := false, false;
      cmds, fontTex := [], NULL;
      calls := [];
    }

    /** `nk_sdl_init`; `now` is what `SDL_GetTicks64` returns. */
    method Init(win: nat, renderer: Renderer, now: nat)
      modifies this
      ensures this.win == win && this.renderer == renderer && timeOfLastFrame == now
      ensures ctxInitialized && clipboardHooked && cmds == []
      ensures fontTex == old(fontTex)
      ensures calls == old(calls) + [NkInitDefault, NkBufferInitDefault(Cmds)]
    {
      this.win := win;
      this.renderer := renderer;
      timeOfLastFrame := now;
      calls := calls + [NkInitDefault];
      ctxInitialized := true;
      clipboardHooked := true;
      calls := calls + [NkBufferInitDefault(Cmds)];
      cmds := [];
    }

    /** `nk_sdl_device_upload_atlas`; `created` is what `SDL_CreateTexture`
        returns. On failure the error is logged and the font texture kept. */
    method UploadAtlas(image: seq<Byte>, width: int, height: int, created: nat)
      modifies this`fontTex, this`calls
      ensures created == NULL ==>
                fontTex == old(fontTex)
                && calls == old(calls) + [SdlCreateTexture(width, height), SdlLog("error creating texture")]
      ensures created != NULL ==>
                fontTex == created
                && calls == old(calls) + [SdlCreateTexture(width, height),
                                          SdlUpdateTexture(created, image, 4 * width),
                                          SdlSetTextureBlendMode(created)]
    {
      calls := calls + [SdlCreateTexture(width, height)];
      if created == NULL {
        calls := calls + [SdlLog("error creating texture")];
        return;
      }
      calls := calls + [SdlUpdateTexture(created, image, 4 * width)];
      calls := calls + [SdlSetTextureBlendMode(created)];
      fontTex := created;
    }

    /** `nk_sdl_render`; `now` is what `SDL_GetTicks64` returns, `converted`
        what `nk_convert` produces, and `clamp` whether the backend was built
        with `NK_SDL_CLAMP_CLIP_RECT`. */
    method Render(aa: AntiAliasing, now: nat, converted: Converted, clamp: bool)
      requires renderer != null
      modifies this, renderer
      ensures renderer == old(renderer) && win == old(win) && fontTex == old(fontTex)
      ensures ctxInitialized == old(ctxInitialized) && clipboardHooked == old(clipboardHooked)
      ensures timeOfLastFrame == now
      ensures renderer.draws == old(renderer.draws)
                + Walk(converted.commands, if clamp then Some(old(renderer.viewport)) else None,
                       converted.vertexBytes / VERTEX_SIZE)
      // the renderer's clip state is what it was on entry
      ensures renderer.clip == old(renderer.clip) && renderer.viewport == old(renderer.viewport)
      // the context is cleared, the commands emptied and both temporary buffers freed
      ensures cmds == []
      ensures calls == old(calls) + [NkBufferInitDefault(Vbuf), NkBufferInitDefault(Ebuf), NkConvert(aa, aa),
                                     NkClear, NkBufferClear(Cmds), NkBufferFree(Vbuf), NkBufferFree(Ebuf)]
    {
      var sdlRenderer: Renderer := renderer;
      timeOfLastFrame := now;

      calls := calls + [NkBufferInitDefault(Vbuf), NkBufferInitDefault(Ebuf), NkConvert(aa, aa)];
      cmds := converted.commands;
      var vertexCount := converted.vertexBytes / VERTEX_SIZE;

      var clippingEnabled := sdlRenderer.IsClipEnabled();
      var savedClip := sdlRenderer.GetClipRect();
      var clampTo: Option<Rect> := None;
      if clamp {
        var viewport := sdlRenderer.GetViewport();
        clampTo := Some(viewport);
      }

      DrawCommands(sdlRenderer, cmds, clampTo, vertexCount);

      sdlRenderer.SetClipRect(Some(savedClip));
      if !clippingEnabled {
        sdlRenderer.SetClipRect(None);
      }

      calls := calls + [NkClear, NkBufferClear(Cmds), NkBufferFree(Vbuf), NkBufferFree(Ebuf)];
      cmds := [];
    }

    /** `nk_sdl_shutdown`: release the atlas, the context, the font texture
        and the command buffer, then zero the whole state. */
    method Shutdown()
      modifies this
      ensures Zeroed()
      ensures calls == old(calls) + [NkFontAtlasClear, NkFree, SdlDestroyTexture(old(fontTex)), NkBufferFree(Cmds)]
    {
      calls := calls + [NkFontAtlasClear, NkFree, SdlDestroyTexture(fontTex), NkBufferFree(Cmds)];
      win, renderer, timeOfLastFrame := 0, null, 0;
      ctxInitialized, clipboardHooked := false, false;
      cmds, fontTex := [], NULL;
    }
  }
}
