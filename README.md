# Renderer lifecycle model

A Dafny model of the `Renderer` base class of the Cluster renderer. This class
owns the offscreen HDR framebuffer and the handles of the tonemapping blit,
and keeps a few pieces of per-frame state: the scene scale, the clear colour
and the elapsed time. It also calls the PBR and lights subsystems and the four
subclass hooks (`onInitialize`, `onReset`, `onRender`, `onShutdown`) at fixed
points.

The graphics library (bgfx) is foreign. It is modelled as a handle allocator
(`Bgfx.Gpu`) whose every creation either fails with the invalid handle or
returns an id it never handed out before. Alongside sits a capability record
(`Bgfx.Caps`) holding the backend, the texture-origin convention and the
formats usable as render targets. What the renderer does to its collaborators
is recorded in a ghost trace of events (`Events.Event`):

- resources created and destroyed;
- uniforms set;
- draws submitted;
- calls into the subsystems and hooks.

The class invariant `Renderer.Valid` says two things, read off that trace:

- the only live framebuffer is the one the renderer holds, so none leaks;
- no framebuffer was ever destroyed while invalid, or twice.

Modules:

- `Bgfx`: backend enum, texture formats, capabilities, handles, the allocator.
- `Scenes`: the scene fields the renderer reads (`loaded`, bounds, camera, sky colour).
- `Selection`: `shaderDir`, the colour and depth format choices of `createFrameBuffer`.
- `ClearColor`: packing three bytes and an opaque alpha into a 32-bit RGBA word.
- `QuadMesh`: the full-screen quad and the in-place texture-coordinate loop.
- `Events`: the trace, live-framebuffer bookkeeping, and counters over traces.
- `RendererCore`: the `Renderer` class and the event sequence each lifecycle operation produces.

## Model

| member | source | states |
|---|---|---|
| Bgfx.Gpu.Create | src/Renderer/Renderer.cpp:39-42 | a creation returns the invalid handle or a handle with an id never handed out before |
| Selection.ShaderDir | src/Renderer/Renderer.cpp:216-249 | every backend, including Gnm and Count, maps to a non-empty directory string |
| Selection.ShaderDirMatchesTable | src/Renderer/Renderer.cpp:216-249 | the switch agrees with the table of known shader directories, and yields "???" exactly for the backends the table leaves out (Gnm, Count) |
| Selection.ShaderDirSharedOnlyWithinFamily | src/Renderer/Renderer.cpp:222-245 | two different backends share a directory only as Noop/Direct3D9, Direct3D11/Direct3D12, or Gnm/Count |
| Selection.ShaderPathsFitBuffers | src/Renderer/Renderer.cpp:61-63 | both shader paths are shorter than the 128-character buffers, so formatting them is plain concatenation; a known directory starts with "shaders/" and ends with '/' |
| Selection.FirstSupported | src/Renderer/Renderer.cpp:200-204 | the result is the fallback or a supported preference, and is a supported preference whenever one exists |
| Selection.FirstSupportedIsEarliest | src/Renderer/Renderer.cpp:200-204 | the search picks the earliest supported preference |
| Selection.FirstSupportedFallsBack | src/Renderer/Renderer.cpp:200-204 | with no preference supported, the search yields the fallback |
| Selection.ColorFormatChoice | src/Renderer/Renderer.cpp:188-190 | the colour format is RGBA16F iff hdr and BGRA8 iff not, and is never a depth format, so never the depth attachment's format |
| Selection.DepthFormat | src/Renderer/Renderer.cpp:199-204 | the depth format is D16 iff D16 is supported, D24S8 iff only D24S8 of the two is, and D32 iff neither is, whether or not D32 is supported |
| Selection.DepthFormatIsFirstSupported | src/Renderer/Renderer.cpp:200-204 | the ternary chain is the first-supported search over [D16, D24S8] with fallback D32 |
| Selection.AttachmentFormats | src/Renderer/Renderer.cpp:181-206 | the count is (colour format valid ? 1 : 0) + (depth ? 1 : 0), at most 2; the colour format is attached iff valid as a render target, and then first; the last attachment is the depth format iff depth is asked for |
| ClearColor.PackClearColor | src/Renderer/Renderer.cpp:97 | red is the top byte, then green, then blue, and the low byte is always 0xFF |
| ClearColor.PackedClearColorRoundTrip | src/Renderer/Renderer.cpp:97 | unpacking a packed word recovers the three channels |
| ClearColor.PackClearColorInjective | src/Renderer/Renderer.cpp:97 | distinct colours pack to distinct words |
| ClearColor.PackedClearColorExamples | src/Renderer/Renderer.cpp:97-102 | black packs to 0x000000FF, white to 0xFFFFFFFF, and the no-scene grey 0x303030FF is the packing of (0x30, 0x30, 0x30) |
| QuadMesh.WithTexCoords | src/Renderer/Renderer.cpp:53-57 | one loop step keeps x and y, sets z to 0, and sets u and v so that x = 2u - 1 and y = 2v - 1, or y = 1 - 2v when flipped |
| QuadMesh.Quad | src/Renderer/Renderer.cpp:45-58 | the uploaded quad has one vertex per corner of the initial array |
| QuadMesh.AssignTexCoords | src/Renderer/Renderer.cpp:51-58 | the loop rewrites every vertex in place to its texture-coordinate step, and nothing else |
| QuadMesh.BuildQuad | src/Renderer/Renderer.cpp:45-58 | the freshly allocated vertex array ends up holding exactly the quad |
| QuadMesh.TexCoordsAtCorners | src/Renderer/Renderer.cpp:53-57 | at x, y in {-1, 1}: z = 0, u and v are in {0, 1}, u = 1 iff x = 1, and v = 1 iff y = 1 unflipped or y = -1 flipped |
| QuadMesh.QuadTexCoords | src/Renderer/Renderer.cpp:45-58 | every quad vertex has z = 0 and u, v in {0, 1}; flipping keeps u and mirrors v to 1 - v |
| RendererCore.TextureEventsCreateAttachments | src/Renderer/Renderer.cpp:191-205 | the i-th texture creation is of the i-th attachment format, with the i-th handle |
| RendererCore.InitializeOrder | src/Renderer/Renderer.cpp:35-70 | initialize touches no framebuffer, and calls pbr, then lights, then onInitialize, last of all |
| RendererCore.ShutdownOrder | src/Renderer/Renderer.cpp:111-123 | shutdown calls onShutdown, pbr, lights in that order (the order of initialize, not its reverse), before any destruction |
| RendererCore.ShutdownDestroysFrameBufferOnlyIfValid | src/Renderer/Renderer.cpp:116-123 | shutdown creates no framebuffer, destroys one iff its framebuffer handle is valid, and then only that one |
| RendererCore.RepeatedShutdownDestroysNoFrameBuffer | src/Renderer/Renderer.cpp:109-128 | a shutdown with every handle invalid destroys no framebuffer, so two shutdowns destroy at most one |
| RendererCore.ShutdownReleasesFrameBuffer | src/Renderer/Renderer.cpp:122-128 | from a trace whose only live framebuffer is the one held, shutdown leaves none live and destroys none unsafely |
| RendererCore.FrameBufferEventsCreateOne | src/Renderer/Renderer.cpp:179-214 | createFrameBuffer creates exactly one framebuffer and destroys none; from a trace with none live, the new one is the only live one |
| RendererCore.FrameScale | src/Renderer/Renderer.cpp:88-101 | the frame's scale is the fitted far-plane scale when a scene is loaded, and 1 otherwise |
| RendererCore.FrameClearColor | src/Renderer/Renderer.cpp:88-103 | with a scene loaded the clear colour unpacks to the sky bytes; without one it is 0x303030FF; its alpha byte is always 0xFF |
| RendererCore.BlitExposure | src/Renderer/Renderer.cpp:173 | the blit's exposure is the camera's when a scene is loaded, and 1 otherwise |
| RendererCore.RenderOrder | src/Renderer/Renderer.cpp:84-106 | render's only call is onRender, which receives dt, the accumulated time and the frame's scale and clear colour, all already updated; it comes before the blit, whose submission on view 199 is the last event; no framebuffer is touched |
| RendererCore.UnloadedFrameIgnoresScene | src/Renderer/Renderer.cpp:99-103 | with no scene loaded, the scale is 1, the clear colour is 0x303030FF, the exposure is 1, and the frame's events are the same whatever the other scene fields, the fitted scale and the sky bytes hold |
| RendererCore.LoadedFrameFollowsScene | src/Renderer/Renderer.cpp:88-97 | with a scene loaded, the scale is the fitted one, the clear colour unpacks to the sky bytes, and two scenes give the same blit iff their cameras' exposures are equal |
| RendererCore.Renderer.constructor | src/Renderer/Renderer.cpp:15-29 | every handle invalid, scale 1, size 0, clear colour 0, time 0, empty trace, invariant established |
| RendererCore.Renderer.CreateUniforms | src/Renderer/Renderer.cpp:39-42 | creates the sampler "s_texColor", the Mat3 "u_normalMatrix" and the Vec4s "u_exposureVec" and "u_sceneScaleVec", in that order |
| RendererCore.Renderer.Initialize | src/Renderer/Renderer.cpp:35-70 | the uniforms, the quad's vertex buffer (flipped iff the origin is not bottom-left), the tonemap program from the backend's shader directory, then pbr, lights and onInitialize; the invariant is kept |
| RendererCore.Renderer.CreateAttachment | src/Renderer/Renderer.cpp:191-205 | one texture creation, its handle stored in the next slot of the attachment array |
| RendererCore.Renderer.CreateFrameBuffer | src/Renderer/Renderer.cpp:179-214 | the textures of the attachment formats are created in order, then one framebuffer over exactly those textures |
| RendererCore.Renderer.EnsureFrameBuffer | src/Renderer/Renderer.cpp:74-77 | a valid framebuffer is kept and nothing is created; an invalid one is replaced by a new createFrameBuffer(true, true); the invariant is kept |
| RendererCore.Renderer.CallResetHook | src/Renderer/Renderer.cpp:81 | onReset is called once, with the stored width and height, and creates no framebuffer |
| RendererCore.Renderer.Reset | src/Renderer/Renderer.cpp:72-82 | the framebuffer is created only when invalid (exactly one creation then, none otherwise), width and height are the arguments, and onReset runs exactly once and last, receiving the new width and height, so they are stored before it runs |
| RendererCore.Renderer.BlitToScreen | src/Renderer/Renderer.cpp:173-176 | sets the exposure (the camera's when a scene is loaded, else 1), then submits the tonemap program on the view |
| RendererCore.Renderer.Render | src/Renderer/Renderer.cpp:84-107 | time grows by dt; scale and clear colour are the scene's when loaded and 1 and 0x303030FF otherwise; the scale uniform is set only when loaded; then onRender, receiving the new time, scale and clear colour, so they are updated before it runs; then the blit on view 199; the invariant is kept |
| RendererCore.Renderer.Shutdown | src/Renderer/Renderer.cpp:109-129 | the three calls, the six unconditional destructions, the framebuffer's only if valid; afterwards all seven handles are invalid, no framebuffer is live, and none was destroyed twice |

## Left out

- Floating point: `scale`, `time`, `dt`, the exposure and the quad's coordinates are reals. At the quad's inputs (exactly -1 and 1) the single-precision results are exact.
- Render: the far-plane fitting formula at line 91 (`compMax`, `abs`, `sqrt`) is not computed. Its value is the parameter `fitScale`.
- Render: the sRGB-to-linear conversion, clamping and rounding of the sky colour at lines 95-96 are not computed. Their result is the parameter `sky`, three bytes.
- PackClearColor: the signed `int` shift at line 97 is modelled as the intended unsigned 32-bit word. The shift of a byte of 128 or more by 24 overflows a signed int, which the model does not reproduce.
- PackClearColor: the packed word is stated byte by byte (bit-vector shifts and masks), not as the integer sum r·2^24 + g·2^16 + b·2^8 + 255. The two agree for 32-bit words.
- Render: line 93 passes the address of the scalar `scale`, not the four-element `scaleVec`, to a Vec4 uniform. The model records the uniform as set to `scale`. bgfx copies 16 bytes for a Vec4 uniform, so the 12 bytes (three floats) read past `scale` are not modelled.
- The projection and view matrices (`setViewProjection`, lines 137-152) and the normal matrix (`setNormalMatrix`, lines 154-162) are not modelled. They are matrix arithmetic that no lifecycle operation calls.
- BlitToScreen: the view name, clear flags, rectangle, framebuffer binding, render state, texture binding and vertex-buffer binding (lines 166-172, 175) are command-buffer plumbing and are not recorded. Only the exposure uniform and the submission are.
- `supported()` (lines 131-135) is a single capability-bit test against the library's table and has no model.
- The vertex layout registration `PosTexCoord0Vertex::init()` (line 37) and its layout are not modelled. Renderer.h, which declares it, is not part of this model.
- Shader paths: `snprintf` into 128-byte buffers and `loadProgram`'s file reads (lines 61-64) are I/O. The program is recorded by its two paths, which `ShaderPathsFitBuffers` shows are never truncated; a failed load is a failed creation.
- Texture flags: `isTextureValid` with the clamped render-target flags, and with the write-only flags, is the membership of a format in `Caps.renderTargetFormats` and `Caps.writeOnlyTargetFormats`.
- `Log->warn` on a failed framebuffer creation (line 211) is output only.
- bgfx handles: per-type 16-bit handle pools are one unbounded id counter, and the failure of a creation is a nondeterministic choice. Destroying a handle is recorded in the trace only; the allocator does not reuse ids.
- The PBR and lights subsystems and the four hooks are opaque. Only their calls are recorded, in order, with the state the reset and render hooks find (the size; the time, scale and clear colour). The model takes them not to touch the renderer's handles.
- `quadVB` is not in the constructor's initializer list (lines 15-27). Its initial value comes from its declaration in Renderer.h, which is not part of this model; the model starts it invalid.
- The scene is a per-call argument of `Render` rather than a stored pointer, because the renderer only reads it.
- The destructor (lines 31-33) is empty.

## Design notes

- The shutdown order of the subsystems is pbr, then lights: the order of initialize, not its reverse. The model follows the code.
- Only the framebuffer is destroyed conditionally. The other six handles are destroyed unconditionally, so the no-double-destroy invariant is claimed for the framebuffer alone.
