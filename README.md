# Nuklear SDL2 glue: event translation and the SDL_Renderer draw walk

This project models the parts of Nuklear's SDL2 demo glue that make decisions of their own:

- **Input translation (`demo/sdl/nuklear_sdl_common.h`), module `SdlCommon`.**
  - `nk_sdl_handle_event` maps one SDL event, SDL's modifier state and Nuklear's mouse state to a sequence of Nuklear input calls and a return code. It is modelled as the function `Translate`, built from `KeyInput`, `ButtonInput` and `MotionInput`.
  - `nk_sdl_handle_grab` is a three-way priority rule. It is modelled as the function `Grab`, and the method `Context.HandleGrab` applies it in place to the context's mouse state.
  - The clipboard callbacks are methods of `Context`. `ClipboardCopy` copies the bytes into a fresh array and writes the terminator.
  - Every call into `nk_input_*`, into SDL or into Nuklear's text editor is appended to a ghost log on `Context`: `inputs` for input calls, `effects` for the rest.
- **The SDL_Renderer backend (`demo/sdl/raw_renderer/nuklear_sdl_renderer.h`), module `SdlRenderer`.**
  - The class `Backend` is the global `sdl` state. Its methods are `Init`, `Render`, `UploadAtlas` and `Shutdown`.
  - The class `Renderer` is SDL's renderer as the backend sees it: its clip state (`None` when clipping is disabled), its viewport, and a ghost log of `SDL_RenderGeometryRaw` calls.
  - `Render` is specified by the function `Walk`: the draws made for a converted command list.
  - The lemmas about `Walk` state what the index-offset accumulation guarantees. Each drawn command is the next non-empty command. The index slices are non-empty, consecutive and disjoint, and together they cover exactly the commands' indices. Empty commands change nothing.
  - `Clamp` states what the `NK_SDL_CLAMP_CLIP_RECT` clamp guarantees. Origins become non-negative. The right and bottom edges are kept until the size reaches the viewport's size, where it is capped. As written, the clamp caps the width and height, not `x + w` and `y + h`, so a clamped rectangle can still extend past the viewport's right or bottom edge. A rectangle lying far enough left of or above the viewport gets a negative width or height. The contract states exactly what the code does.
- **Module `Base`** holds shared C types and `Trunc`, which models C's conversion of a float to an int (truncation toward zero). It is used where the source casts a float mouse position or a float Nuklear clip rectangle to an int.

Modelling choices:

- SDL's event types, key codes, Ctrl modifier bits and button ids use SDL2's numeric values, because SDL's headers are not part of this model.
- Mouse positions and clip rectangles are Nuklear floats that the code only copies or casts. They are modelled as `real`.
- `SDL_GetTicks64`, `SDL_GetModState`, `SDL_CreateTexture`, `malloc` and `SDL_GetClipboardText` are parameters of the methods that call them.
- Nuklear's `nk_convert` is an input (`Converted`): the draw commands it leaves in `dev->cmds` and `vbuf.needed`.
- The compile-time flag `NK_SDL_CLAMP_CLIP_RECT` is the `clamp` parameter of `Render`.
- Index offsets count indices from the start of the element buffer. The C code's index pointer advances by `elem_count` indices of 2 bytes each.

## Model

| member | source | states |
|---|---|---|
| Base.Trunc | demo/sdl/nuklear_sdl_common.h:164 | the (int) cast of a float drops the fraction toward zero: the result lies within one of the value, on the same side of zero |
| SdlCommon.KeyInput | demo/sdl/nuklear_sdl_common.h:101-141 | a key event makes at most two key calls. None reports pressed on a release. A Ctrl shortcut (z r c v x b e) reports pressed only with Ctrl. No call is made exactly for unmapped keys and for `a` without Ctrl. Two calls are made exactly for HOME and END |
| SdlCommon.ButtonInput | demo/sdl/nuklear_sdl_common.h:148-158 | every button call carries the event's x, y and up/down state. Left with clicks > 1 makes DOUBLE then LEFT. Left, middle and right otherwise make exactly their own button. Any other button makes nothing |
| SdlCommon.MotionInput | demo/sdl/nuklear_sdl_common.h:162-167 | while grabbed, the reported position minus the relative delta is the float previous position with its fraction dropped toward zero. Otherwise it is the event's absolute position |
| SdlCommon.Translate | demo/sdl/nuklear_sdl_common.h:94-182 | returns 1 exactly for key, button, motion, text-input and wheel events, and 0 with no input call for every other type. Key and button events use KEYDOWN/BUTTONDOWN as `down` and Ctrl from either Ctrl modifier bit. Text input passes the first 4 bytes as the glyph. Wheel passes the precise offsets |
| SdlCommon.KeyDownOnlyOnPress | demo/sdl/nuklear_sdl_common.h:99-143 | for a key event, every call is a key call returning 1, and its down flag holds exactly when the event is KEYDOWN and, for a Ctrl shortcut, Ctrl is held |
| SdlCommon.PressAndReleaseNameSameKeys | demo/sdl/nuklear_sdl_common.h:96-141 | a press and a release of the same key name the same Nuklear keys in the same order |
| SdlCommon.KeyAliases | demo/sdl/nuklear_sdl_common.h:103-115 | both shifts are SHIFT, RETURN and keypad ENTER are ENTER, HOME is TEXT_START then SCROLL_START, END is TEXT_END then SCROLL_END, all with the same down value |
| SdlCommon.ShortcutWithoutCtrlIsRelease | demo/sdl/nuklear_sdl_common.h:118-124 | without Ctrl, a shortcut press makes the same single call as its release, and it reports released |
| SdlCommon.CtrlSelectsVariant | demo/sdl/nuklear_sdl_common.h:127-140 | `a` is SELECT_ALL with Ctrl and nothing without. LEFT and RIGHT are word moves with Ctrl and plain moves without |
| SdlCommon.Grab | demo/sdl/nuklear_sdl_common.h:76-85 | priority grab > ungrab > grabbed. grab: relative mode on. ungrab: relative mode off, then a warp to the truncated previous position. grabbed: pos := prev. Otherwise nothing. Only `pos` ever changes |
| SdlCommon.MotionFromWholePosition | demo/sdl/nuklear_sdl_common.h:162-167 | while grabbed, a whole-pixel previous position is moved by exactly the relative delta. Otherwise the event's position is reported whatever the previous one was |
| SdlCommon.GrabTwice | demo/sdl/nuklear_sdl_common.h:76-85 | a second run of the rule repeats the same SDL calls and keeps the mouse where the first run left it |
| SdlCommon.Terminated | demo/sdl/nuklear_sdl_common.h:39-40 | the copy has len + 1 bytes: the first len bytes of the text, then 0 at index len |
| SdlCommon.StrLen | demo/sdl/nuklear_sdl_common.h:24 | the length is the index of the first NUL byte, or the whole length when there is none, and no byte before it is NUL |
| SdlCommon.Context.HandleGrab | demo/sdl/nuklear_sdl_common.h:70-86 | the new mouse state and the appended SDL calls are those of `Grab` on the old mouse state. The input log is unchanged |
| SdlCommon.Context.HandleEvent | demo/sdl/nuklear_sdl_common.h:88-183 | appends exactly `Translate`'s input calls to the input log and returns its code. The shim itself writes neither the mouse state nor the SDL call log |
| SdlCommon.Context.ClipboardCopy | demo/sdl/nuklear_sdl_common.h:31-43 | for len = 0 or a failed allocation, no SDL call. Otherwise one SetClipboardText with the first len bytes and a terminator |
| SdlCommon.Context.ClipboardPaste | demo/sdl/nuklear_sdl_common.h:20-29 | asks SDL for the clipboard. When text comes back, pastes it into the edit field with its `nk_strlen` length and then frees SDL's copy |
| SdlRenderer.Clamp | demo/sdl/raw_renderer/nuklear_sdl_renderer.h:147-162 | after clamping, x ≥ 0, y ≥ 0, w ≤ viewport.w and h ≤ viewport.h. x and y become max(·, 0). w and h keep the old right and bottom edge, capped at the viewport size. A rectangle already within these bounds is unchanged |
| SdlRenderer.ClipFor | demo/sdl/raw_renderer/nuklear_sdl_renderer.h:142-162 | without the clamp flag, every member is the command's float member with its fraction dropped toward zero. With it, the origin is non-negative, the width and height are at most the viewport's, and the truncated right and bottom edges are kept until the size is capped |
| SdlRenderer.ClipRectFor | demo/sdl/raw_renderer/nuklear_sdl_renderer.h:141-164 | the field-by-field in-place updates of the local SDL_Rect compute `ClipFor` |
| SdlRenderer.ElemSumNonEmpty | demo/sdl/raw_renderer/nuklear_sdl_renderer.h:139 | skipping empty commands does not change the number of indices consumed |
| SdlRenderer.WalkDrawsNonEmptyCommands | demo/sdl/raw_renderer/nuklear_sdl_renderer.h:137-179 | the walk makes exactly one draw per non-empty command, in order. Draw k uses the k-th non-empty command's texture, clip and elem_count, at the sum of the elem_counts of the non-empty commands before it |
| SdlRenderer.WalkSlicesAreContiguous | demo/sdl/raw_renderer/nuklear_sdl_renderer.h:129-177 | each draw's slice is non-empty and starts where all earlier draws' slices end. Together they use exactly the sum of all elem_counts |
| SdlRenderer.WalkSlicesDisjoint | demo/sdl/raw_renderer/nuklear_sdl_renderer.h:169-177 | no two draws share an index, and every slice ends within the commands' total index count |
| SdlRenderer.WalkSkipsEmpty | demo/sdl/raw_renderer/nuklear_sdl_renderer.h:139 | inserting a command with elem_count 0 anywhere changes neither the draws nor the index total |
| SdlRenderer.WalkDrawsUniform | demo/sdl/raw_renderer/nuklear_sdl_renderer.h:166-175 | every draw has a clip rectangle set. It reads position, colour and uv at offsets 0, 16 and 8 with stride 20, uses vbuf.needed / 20 vertices and 2-byte indices, and, when clamping, a clip with a non-negative origin and a width and height at most the viewport's (possibly negative) |
| SdlRenderer.DrawCommands | demo/sdl/raw_renderer/nuklear_sdl_renderer.h:137-179 | the loop with its running offset appends exactly `Walk` of the command list to the renderer's draw log, and leaves the clip of the last drawn command in force (the entry clip when nothing is drawn) |
| SdlRenderer.Renderer.IsClipEnabled | demo/sdl/raw_renderer/nuklear_sdl_renderer.h:131 | SDL reports clipping enabled exactly when a clip rectangle is set |
| SdlRenderer.Renderer.GetClipRect | demo/sdl/raw_renderer/nuklear_sdl_renderer.h:132 | SDL returns the clip rectangle, or an empty rectangle when clipping is disabled |
| SdlRenderer.Renderer.GetViewport | demo/sdl/raw_renderer/nuklear_sdl_renderer.h:134 | SDL returns the renderer's viewport |
| SdlRenderer.Renderer.SetClipRect | demo/sdl/raw_renderer/nuklear_sdl_renderer.h:163 | a rectangle enables clipping to it. NULL disables clipping |
| SdlRenderer.Renderer.RenderGeometryRaw | demo/sdl/raw_renderer/nuklear_sdl_renderer.h:169-175 | one draw is logged with the clip state in force |
| SdlRenderer.Backend.Render | demo/sdl/raw_renderer/nuklear_sdl_renderer.h:76-191 | the renderer receives exactly `Walk`'s draws. Its clip state on exit equals its state on entry. time_of_last_frame is the tick read on entry. The command list is emptied. The Nuklear calls are init(vbuf), init(ebuf), convert with the requested AA, clear, then clear(cmds), free(vbuf) and free(ebuf) |
| SdlRenderer.Backend.UploadAtlas | demo/sdl/raw_renderer/nuklear_sdl_renderer.h:61-74 | if texture creation fails, the error is logged and font_tex is unchanged. Otherwise the texture is filled with pitch 4·width, set to blend, and becomes font_tex |
| SdlRenderer.Backend.Init | demo/sdl/raw_renderer/nuklear_sdl_renderer.h:215-223 | stores the window and renderer, reads the ticks into time_of_last_frame, initialises the context with the clipboard callbacks and initialises the command buffer |
| SdlRenderer.Backend.Shutdown | demo/sdl/raw_renderer/nuklear_sdl_renderer.h:226-236 | clears the atlas, frees the context, destroys the old font texture and frees the command buffer, in that order, then every field of the state is zero |

## Left out

- The float `delta_time_seconds` (nuklear_sdl_renderer.h:108): floating-point division. Only the integer tick update is modelled.
- SdlCommon.Translate: the precise wheel offsets (nuklear_sdl_common.h:179) are floats passed through unchanged as `real`.
- SdlCommon.MotionInput: `x + xrel` is unbounded integer addition. The 32-bit `int` overflow of the C sum is not modelled, because pixel coordinates stay far from it.
- SdlRenderer.Clamp: `w += x` and `h += y` are unbounded integer additions. 32-bit overflow is not modelled, nor is the C float-to-int cast of values outside the `int` range (undefined behaviour in C). `Trunc` assumes the value fits.
- The `nk_convert` configuration (vertex layout, segment counts, global alpha, `tex_null`) is not modelled. Nuklear's conversion is opaque, so only its output and the requested anti-aliasing are kept.
- The vertex and index buffer contents are not modelled. The draws record offsets and counts, not bytes.
- Nuklear itself (`nk_convert`, `nk_draw_foreach`, `nk_buffer_*`, `nk_font_atlas_*`, `nk_textedit_paste`, `nk_init_default`, `nk_clear`, `nk_free`) is opaque and appears only as entries in the call logs.
- SDL's own state beyond the clip rectangle and viewport is not modelled. Texture calls, the relative-mouse switch, the warp and the clipboard appear only as log entries.
- `nk_sdl_font_stash_begin` and `nk_sdl_font_stash_end` (nuklear_sdl_common.h:45-68) only forward to Nuklear's font atlas.
- The Metal and SDL-version warning in `nk_sdl_init` (nuklear_sdl_renderer.h:196-214) is an environment probe plus logging.
- demo/sdl/opengl2/nuklear_sdl_gl2.h, demo/sdl/opengles2/nuklear_sdl_gles2.h and demo/sdl/nuklear_sdl_gl_common.h are not part of this model. They repeat the same command walk inside OpenGL state calls and float scissor arithmetic.
- SdlCommon.Context.ClipboardCopy requires 0 ≤ len ≤ |text|, as Nuklear's callers guarantee. A negative `len` would reach `malloc` with a wrapped size in C.
- SdlCommon.Context.HandleEvent: the logged `nk_input_*` calls' effects on `ctx->input` are not applied to `mouse`. After a motion event Nuklear itself moves `mouse.pos`, but Nuklear's input code is not part of this model, so `mouse` keeps the state from before the logged calls take effect.
- The `usr` handle of the clipboard callbacks is unused by the source and is not modelled.
