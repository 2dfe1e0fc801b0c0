/** The Renderer base class: it owns the offscreen HDR framebuffer and the
    handles of the tonemap blit, keeps the per-frame scale and clear colour,
    and calls the shading subsystems and the four subclass hooks at fixed
    points of its lifecycle. */
module RendererCore {
  import opened Bgfx
  import opened Scenes
  import opened Selection
  import opened ClearColor
  import opened QuadMesh
  import opened Events

  newtype uint16 = x: int | 0 <= x < 0x1_0000

  /** The view the tonemap blit is submitted on, after every HDR pass. */
  const BlitView: nat := 199

  /** The seven GPU handles the renderer owns. */
  datatype Handles = Handles(
    frameBuffer: Handle,
    blitProgram: Handle,
    blitSampler: Handle,
    normalMatrixUniform: Handle,
    exposureVecUniform: Handle,
    sceneScaleVecUniform: Handle,
    quadVB: Handle)

  const AllInvalid: Handles := Handles(Invalid, Invalid, Invalid, Invalid, Invalid, Invalid, Invalid)

  // ----- What each lifecycle operation does to the collaborators -----

  /** The tonemap program, loaded from the backend's shader directory. */
  function TonemapProgram(r: RendererType): Resource
  {
    ProgramRes(ShaderDir(r) + VsTonemap, ShaderDir(r) + FsTonemap)
  }

  /** The sampler and the three numeric uniforms of the blit, in creation order. */
  function UniformEvents(sampler: Handle, normalMatrix: Handle, exposureVec: Handle, sceneScaleVec: Handle): seq<Event>
  {
    [ Created(UniformRes("s_texColor", Sampler), sampler),
      Created(UniformRes("u_normalMatrix", Mat3), normalMatrix),
      Created(UniformRes("u_exposureVec", UniformType.Vec4), exposureVec),
      Created(UniformRes("u_sceneScaleVec", UniformType.Vec4), sceneScaleVec) ]
  }

  /** initialize: four uniforms, the quad, the program, then the subsystems
      and the hook. */
  function InitializeEvents(caps: Caps, hs: Handles): seq<Event>
  {
    UniformEvents(hs.blitSampler, hs.normalMatrixUniform, hs.exposureVecUniform, hs.sceneScaleVecUniform) +
    [ Created(VertexBufferRes(Quad(!caps.originBottomLeft)), hs.quadVB),
      Created(TonemapProgram(caps.rendererType), hs.blitProgram),
      Called(PbrInitialize), Called(LightsInitialize), Called(OnInitialize) ]
  }

  /** One texture creation per attachment format, in order. */
  function TextureEvents(fmts: seq<TextureFormat>, ts: seq<Handle>): (es: seq<Event>)
    requires |ts| == |fmts|
    ensures |es| == |fmts|
  {
    if fmts == [] then [] else [Created(TextureRes(fmts[0]), ts[0])] + TextureEvents(fmts[1..], ts[1..])
  }

  /** The i-th event creates the i-th attachment with its format. */
  lemma {:induction false} TextureEventsCreateAttachments(fmts: seq<TextureFormat>, ts: seq<Handle>)
    requires |ts| == |fmts|
    ensures forall i :: 0 <= i < |fmts| ==> TextureEvents(fmts, ts)[i] == Created(TextureRes(fmts[i]), ts[i])
  {
    if fmts != [] {
      TextureEventsCreateAttachments(fmts[1..], ts[1..]);
    }
  }

  /** Adding one attachment adds its creation at the end. */
  lemma {:induction false} TextureEventsSnoc(fmts: seq<TextureFormat>, ts: seq<Handle>, f: TextureFormat, t: Handle)
    requires |ts| == |fmts|
    ensures TextureEvents(fmts + [f], ts + [t]) == TextureEvents(fmts, ts) + [Created(TextureRes(f), t)]
  {
    if fmts == [] {
      assert fmts + [f] == [f] && ts + [t] == [t];
    } else {
      assert (fmts + [f])[1..] == fmts[1..] + [f];
      assert (ts + [t])[1..] == ts[1..] + [t];
      TextureEventsSnoc(fmts[1..], ts[1..], f, t);
    }
  }

  /** createFrameBuffer: the attachments, then the framebuffer over them. */
  function FrameBufferEvents(fmts: seq<TextureFormat>, ts: seq<Handle>, fb: Handle): seq<Event>
    requires |ts| == |fmts|
  {
    TextureEvents(fmts, ts) + [Created(FrameBufferRes(ts), fb)]
  }

  /** The scale of a frame; fitScale is the value of the far-plane fitting
      formula for a loaded scene. */
  function FrameScale(scene: Scene, fitScale: real): (s: real)
    ensures scene.loaded ==> s == fitScale
    ensures !scene.loaded ==> s == 1.0
  {
    if scene.loaded then fitScale else 1.0
  }

  /** The clear colour of a frame; sky is the scene's sky colour converted to
      linear space, clamped and rounded to bytes. */
  function FrameClearColor(scene: Scene, sky: Rgb8): (c: bv32)
    ensures scene.loaded ==> ClearColorChannels(c) == sky
    ensures !scene.loaded ==> c == NoSceneClearColor
    ensures c & 0xFF == 0xFF
  {
    if scene.loaded then PackClearColor(sky) else NoSceneClearColor
  }

  /** The exposure the tonemap blit applies. */
  function BlitExposure(scene: Scene): (e: real)
    ensures scene.loaded ==> e == scene.camera.exposure
    ensures !scene.loaded ==> e == 1.0
  {
    if scene.loaded then scene.camera.exposure else 1.0
  }

  /** blitToScreen: set the exposure, then submit the tonemap program. */
  function BlitEvents(view: nat, scene: Scene, hs: Handles): seq<Event>
  {
    [UniformSet(hs.exposureVecUniform, BlitExposure(scene)), Submitted(view, hs.blitProgram)]
  }

  /** The render hook as a frame calls it: time is the accumulated time
      including dt, and the scale and clear colour are the frame's. */
  function RenderHook(dt: real, time: real, scene: Scene, fitScale: real, sky: Rgb8): Call
  {
    OnRender(dt, time, FrameScale(scene, fitScale), FrameClearColor(scene, sky))
  }

  /** render: the scene scale uniform when a scene is loaded, the hook, then
      the blit. */
  function RenderEvents(dt: real, time: real, scene: Scene, fitScale: real, sky: Rgb8, hs: Handles): seq<Event>
  {
    (if scene.loaded then [UniformSet(hs.sceneScaleVecUniform, fitScale)] else [])
    + [Called(RenderHook(dt, time, scene, fitScale, sky))] + BlitEvents(BlitView, scene, hs)
  }

  /** shutdown: the hook, the subsystems, the six unconditional destructions,
      and the framebuffer's only when it is valid. */
  function ShutdownEvents(hs: Handles): seq<Event>
  {
    [ Called(OnShutdown), Called(PbrShutdown), Called(LightsShutdown),
      Destroyed(ProgramKind, hs.blitProgram),
      Destroyed(UniformKind, hs.blitSampler),
      Destroyed(UniformKind, hs.normalMatrixUniform),
      Destroyed(UniformKind, hs.exposureVecUniform),
      Destroyed(UniformKind, hs.sceneScaleVecUniform),
      Destroyed(VertexBufferKind, hs.quadVB) ]
    + (if hs.frameBuffer.Valid? then [Destroyed(FrameBufferKind, hs.frameBuffer)] else [])
  }

  // ----- Properties of the lifecycle -----

  /** A trace with no call events has an empty call order. */
  lemma {:induction false} NoCalls(t: seq<Event>)
    requires forall i :: 0 <= i < |t| ==> !t[i].Called?
    ensures Calls(t) == []
  {
    if t != [] {
      NoCalls(t[1..]);
    }
  }

  /** A trace with no framebuffer events creates and destroys none. */
  lemma {:induction false} NoFrameBufferEvents(t: seq<Event>)
    requires forall i :: 0 <= i < |t| ==> !TouchesFrameBuffer(t[i])
    ensures FrameBufferCreations(t) == 0 && FrameBufferDestructions(t) == 0
  {
    if t != [] {
      NoFrameBufferEvents(t[1..]);
    }
  }

  /** initialize creates no framebuffer, and calls the PBR subsystem, then
      the lights subsystem, then the hook, last of all. */
  lemma InitializeOrder(caps: Caps, hs: Handles)
    ensures forall i :: 0 <= i < |InitializeEvents(caps, hs)| ==> !TouchesFrameBuffer(InitializeEvents(caps, hs)[i])
    ensures Calls(InitializeEvents(caps, hs)) == [PbrInitialize, LightsInitialize, OnInitialize]
    ensures InitializeEvents(caps, hs)[|InitializeEvents(caps, hs)| - 1] == Called(OnInitialize)
  {
    var es := InitializeEvents(caps, hs);
    assert es == es[..6] + es[6..];
    NoCalls(es[..6]);
    OnlyCalls(es[6..]);
    CallsConcat(es[..6], es[6..]);
  }

  /** shutdown calls the hook, then the PBR subsystem, then the lights
      subsystem (the order of initialize, not its reverse), and only then
      destroys anything. */
  lemma ShutdownOrder(hs: Handles)
    ensures Calls(ShutdownEvents(hs)) == [OnShutdown, PbrShutdown, LightsShutdown]
    ensures forall i, j :: 0 <= i < j < |ShutdownEvents(hs)| && ShutdownEvents(hs)[j].Called? ==>
      ShutdownEvents(hs)[i].Called?
  {
    var es := ShutdownEvents(hs);
    assert es == es[..3] + es[3..];
    NoCalls(es[3..]);
    OnlyCalls(es[..3]);
    CallsConcat(es[..3], es[3..]);
  }

  /** shutdown creates no framebuffer and destroys one exactly when its
      framebuffer handle is valid, and then that one. */
  lemma ShutdownDestroysFrameBufferOnlyIfValid(hs: Handles)
    ensures FrameBufferCreations(ShutdownEvents(hs)) == 0
    ensures FrameBufferDestructions(ShutdownEvents(hs)) == if hs.frameBuffer.Valid? then 1 else 0
    ensures forall i :: 0 <= i < |ShutdownEvents(hs)| && TouchesFrameBuffer(ShutdownEvents(hs)[i]) ==>
      ShutdownEvents(hs)[i] == Destroyed(FrameBufferKind, hs.frameBuffer) && hs.frameBuffer.Valid?
  {
    var es := ShutdownEvents(hs);
    assert es == es[..9] + es[9..];
    NoFrameBufferEvents(es[..9]);
    CreationsConcat(es[..9], es[9..]);
    DestructionsConcat(es[..9], es[9..]);
    if hs.frameBuffer.Valid? {
      assert es[9..][1..] == [];
    }
  }

  /** A second shutdown destroys no framebuffer: over both, at most one is
      destroyed. */
  lemma RepeatedShutdownDestroysNoFrameBuffer(hs: Handles)
    ensures FrameBufferDestructions(ShutdownEvents(AllInvalid)) == 0
    ensures FrameBufferDestructions(ShutdownEvents(hs) + ShutdownEvents(AllInvalid)) <= 1
  {
    ShutdownDestroysFrameBufferOnlyIfValid(hs);
    ShutdownDestroysFrameBufferOnlyIfValid(AllInvalid);
    DestructionsConcat(ShutdownEvents(hs), ShutdownEvents(AllInvalid));
  }

  /** From a trace whose only live framebuffer is the one held, shutdown
      leaves no live framebuffer and destroys none unsafely. */
  lemma ShutdownReleasesFrameBuffer(t: seq<Event>, hs: Handles)
    requires LiveFrameBuffers(t) == HandleIds(hs.frameBuffer) && FrameBufferDestroysSafe(t)
    ensures LiveFrameBuffers(t + ShutdownEvents(hs)) == {}
    ensures FrameBufferDestroysSafe(t + ShutdownEvents(hs))
  {
    var es := ShutdownEvents(hs);
    FrameBufferNeutral(t, es[..9]);
    assert t + es == (t + es[..9]) + es[9..];
    if hs.frameBuffer.Valid? {
      AppendEvent(t + es[..9], Destroyed(FrameBufferKind, hs.frameBuffer));
    } else {
      assert t + es == t + es[..9];
    }
  }

  /** createFrameBuffer creates exactly one framebuffer; from a trace with
      no live framebuffer, the new one is the only live one. */
  lemma FrameBufferEventsCreateOne(t: seq<Event>, fmts: seq<TextureFormat>, ts: seq<Handle>, fb: Handle)
    requires |ts| == |fmts|
    requires LiveFrameBuffers(t) == {} && FrameBufferDestroysSafe(t)
    ensures FrameBufferCreations(FrameBufferEvents(fmts, ts, fb)) == 1
    ensures FrameBufferDestructions(FrameBufferEvents(fmts, ts, fb)) == 0
    ensures LiveFrameBuffers(t + FrameBufferEvents(fmts, ts, fb)) == HandleIds(fb)
    ensures FrameBufferDestroysSafe(t + FrameBufferEvents(fmts, ts, fb))
  {
    var tex := TextureEvents(fmts, ts);
    var last := Created(FrameBufferRes(ts), fb);
    TextureEventsCreateAttachments(fmts, ts);
    NoFrameBufferEvents(tex);
    CreationsConcat(tex, [last]);
    DestructionsConcat(tex, [last]);
    FrameBufferNeutral(t, tex);
    assert t + FrameBufferEvents(fmts, ts, fb) == (t + tex) + [last];
    AppendEvent(t + tex, last);
  }

  /** render calls the hook, which finds time, scale and clear colour
      already updated, before the blit, and the blit's submission on view 199
      is its last event; it touches no framebuffer. */
  lemma RenderOrder(dt: real, time: real, scene: Scene, fitScale: real, sky: Rgb8, hs: Handles)
    ensures Calls(RenderEvents(dt, time, scene, fitScale, sky, hs)) ==
      [OnRender(dt, time, FrameScale(scene, fitScale), FrameClearColor(scene, sky))]
    ensures var es := RenderEvents(dt, time, scene, fitScale, sky, hs);
      es[|es| - 1] == Submitted(BlitView, hs.blitProgram) &&
      exists i :: 0 <= i < |es| - 1 && es[i] == Called(RenderHook(dt, time, scene, fitScale, sky))
    ensures forall i :: 0 <= i < |RenderEvents(dt, time, scene, fitScale, sky, hs)| ==>
      !TouchesFrameBuffer(RenderEvents(dt, time, scene, fitScale, sky, hs)[i])
  {
    var pre := if scene.loaded then [UniformSet(hs.sceneScaleVecUniform, fitScale)] else [];
    var hook := [Called(RenderHook(dt, time, scene, fitScale, sky))];
    var blit := BlitEvents(BlitView, scene, hs);
    NoCalls(pre);
    NoCalls(blit);
    OnlyCalls(hook);
    CallsConcat(pre, hook);
    CallsConcat(pre + hook, blit);
    assert RenderEvents(dt, time, scene, fitScale, sky, hs)[|pre|] == hook[0];
  }

  /** With no scene loaded, a frame's scale, clear colour, exposure and events
      do not depend on any other scene field, nor on the scale or sky inputs. */
  lemma UnloadedFrameIgnoresScene(dt: real, time: real, s: Scene, s': Scene, fitScale: real, fitScale': real, sky: Rgb8, sky': Rgb8, hs: Handles)
    requires !s.loaded && !s'.loaded
    ensures FrameScale(s, fitScale) == FrameScale(s', fitScale') == 1.0
    ensures FrameClearColor(s, sky) == FrameClearColor(s', sky') == 0x303030FF
    ensures BlitExposure(s) == BlitExposure(s') == 1.0
    ensures RenderEvents(dt, time, s, fitScale, sky, hs) == RenderEvents(dt, time, s', fitScale', sky', hs)
  {
  }

  /** With a scene loaded, the frame follows the scene: the scale is the
      fitted one, the clear colour unpacks to the sky bytes, and the blit
      depends on the scene only through the camera's exposure. */
  lemma LoadedFrameFollowsScene(view: nat, s: Scene, s': Scene, fitScale: real, sky: Rgb8, hs: Handles)
    requires s.loaded && s'.loaded
    ensures FrameScale(s, fitScale) == fitScale
    ensures ClearColorChannels(FrameClearColor(s, sky)) == sky
    ensures BlitEvents(view, s, hs) == BlitEvents(view, s', hs) <==> s.camera.exposure == s'.camera.exposure
  {
  }

  // ----- The renderer -----

  class Renderer {
    const gpu: Gpu
    var scale: real
    var width: uint16
    var height: uint16
    var clearColor: bv32
    var time: real
    var frameBuffer: Handle
    var blitProgram: Handle
    var blitSampler: Handle
    var normalMatrixUniform: Handle
    var exposureVecUniform: Handle
    var sceneScaleVecUniform: Handle
    var quadVB: Handle
    /** Everything the renderer has done to its collaborators, oldest first. */
    ghost var trace: seq<Event>

    function CurrentHandles(): Handles
      reads this`frameBuffer, this`blitProgram, this`blitSampler, this`normalMatrixUniform,
        this`exposureVecUniform, this`sceneScaleVecUniform, this`quadVB
    {
      Handles(frameBuffer, blitProgram, blitSampler, normalMatrixUniform,
              exposureVecUniform, sceneScaleVecUniform, quadVB)
    }

    /** The framebuffer held is the only live one (none leaked), and no
        framebuffer was ever destroyed while invalid or twice. */
    ghost predicate Valid()
      reads this`trace, this`frameBuffer
    {
      LiveFrameBuffers(trace) == HandleIds(frameBuffer) && FrameBufferDestroysSafe(trace)
    }

    constructor (gpu: Gpu)
      ensures this.gpu == gpu && Valid() && trace == []
      ensures CurrentHandles() == AllInvalid
      ensures scale == 1.0 && width == 0 && height == 0 && clearColor == 0 && time == 0.0
    {
      this.gpu := gpu;
      scale := 1.0;
      width, height := 0, 0;
      clearColor := 0;
      time := 0.0;
      frameBuffer, blitProgram, blitSampler := Invalid, Invalid, Invalid;
      normalMatrixUniform, exposureVecUniform, sceneScaleVecUniform := Invalid, Invalid, Invalid;
      quadVB := Invalid;
      trace := [];
    }

    /** Creates the sampler and the three numeric uniforms of the blit. */
    method CreateUniforms()
      modifies this`blitSampler, this`normalMatrixUniform, this`exposureVecUniform,
        this`sceneScaleVecUniform, this`trace, gpu
      ensures trace == old(trace) + UniformEvents(blitSampler, normalMatrixUniform, exposureVecUniform, sceneScaleVecUniform)
    {
      blitSampler := gpu.Create();
      trace := trace + [Created(UniformRes("s_texColor", Sampler), blitSampler)];
      normalMatrixUniform := gpu.Create();
      trace := trace + [Created(UniformRes("u_normalMatrix", Mat3), normalMatrixUniform)];
      exposureVecUniform := gpu.Create();
      trace := trace + [Created(UniformRes("u_exposureVec", UniformType.Vec4), exposureVecUniform)];
      sceneScaleVecUniform := gpu.Create();
      trace := trace + [Created(UniformRes("u_sceneScaleVec", UniformType.Vec4), sceneScaleVecUniform)];
    }

    method Initialize()
      requires Valid()
      modifies this`blitSampler, this`normalMatrixUniform, this`exposureVecUniform,
        this`sceneScaleVecUniform, this`quadVB, this`blitProgram, this`trace, gpu
      ensures Valid()
      ensures trace == old(trace) + InitializeEvents(gpu.caps, CurrentHandles())
    {
      CreateUniforms();
      ghost var log := trace;

      var vertices := BuildQuad(!gpu.caps.originBottomLeft);
      ghost var quad := vertices[..];
      quadVB := gpu.Create();
      log := log + [Created(VertexBufferRes(quad), quadVB)];

      var dir := ShaderDir(gpu.caps.rendererType);
      blitProgram := gpu.Create();
      log := log + [Created(ProgramRes(dir + VsTonemap, dir + FsTonemap), blitProgram)];

      log := log + [Called(PbrInitialize), Called(LightsInitialize), Called(OnInitialize)];
      ghost var es := InitializeEvents(gpu.caps, CurrentHandles());
      assert log == old(trace) + es;
      assert LiveFrameBuffers(old(trace) + es) == LiveFrameBuffers(old(trace)) &&
        FrameBufferDestroysSafe(old(trace) + es) by {
        InitializeOrder(gpu.caps, CurrentHandles());
        FrameBufferNeutral(old(trace), es);
      }
      trace := log;
    }

    /** Creates one attachment texture and stores its handle in slot n. */
    method CreateAttachment(textures: array<Handle>, n: nat, format: TextureFormat) returns (t: Handle)
      requires n < textures.Length
      modifies textures, this`trace, gpu
      ensures textures[..n + 1] == old(textures[..n]) + [t]
      ensures textures[n + 1..] == old(textures[n + 1..])
      ensures trace == old(trace) + [Created(TextureRes(format), t)]
    {
      t := gpu.Create();
      textures[n] := t;
      trace := trace + [Created(TextureRes(format), t)];
    }

    /** Creates the offscreen framebuffer: a colour attachment when its
        format can be a render target, and a depth attachment when asked. */
    method CreateFrameBuffer(hdr: bool, depth: bool) returns (fb: Handle, ghost attached: seq<Handle>)
      modifies this`trace, gpu
      ensures |attached| == |AttachmentFormats(gpu.caps, hdr, depth)|
      ensures trace == old(trace) + FrameBufferEvents(AttachmentFormats(gpu.caps, hdr, depth), attached, fb)
    {
      var textures := new Handle[2];
      var attachments: nat := 0;
      ghost var fmts: seq<TextureFormat> := [];
      ghost var ts: seq<Handle> := [];

      var format := ColorFormat(hdr);
      if format in gpu.caps.renderTargetFormats {
        var t := CreateAttachment(textures, attachments, format);
        TextureEventsSnoc([], [], format, t);
        attachments := attachments + 1;
        fmts, ts := [format], [t];
      }
      assert textures[..attachments] == ts && trace == old(trace) + TextureEvents(fmts, ts);

      if depth {
        var depthFormat := DepthFormat(gpu.caps);
        var t := CreateAttachment(textures, attachments, depthFormat);
        TextureEventsSnoc(fmts, ts, depthFormat, t);
        attachments := attachments + 1;
        fmts, ts := fmts + [depthFormat], ts + [t];
      }
      assert fmts == AttachmentFormats(gpu.caps, hdr, depth) by {
        assert fmts == (if ColorFormat(hdr) in gpu.caps.renderTargetFormats then [ColorFormat(hdr)] else [])
          + (if depth then [DepthFormat(gpu.caps)] else []);
      }
      attached := textures[..attachments];
      assert attached == ts;

      fb := gpu.Create();
      trace := trace + [Created(FrameBufferRes(attached), fb)];
    }

    /** The first half of reset: creates the framebuffer unless the one held
        is valid. created is what this adds to the trace. */
    method EnsureFrameBuffer() returns (ghost created: seq<Event>, ghost attached: seq<Handle>)
      requires Valid()
      modifies this`frameBuffer, this`trace, gpu
      ensures Valid()
      ensures trace == old(trace) + created
      ensures FrameBufferCreations(trace) == FrameBufferCreations(old(trace)) + if old(frameBuffer).Valid? then 0 else 1
      ensures Calls(trace) == Calls(old(trace))
      ensures old(frameBuffer).Valid? ==> frameBuffer == old(frameBuffer) && created == []
      ensures old(frameBuffer).Invalid? ==>
        |attached| == |AttachmentFormats(gpu.caps, true, true)| &&
        created == FrameBufferEvents(AttachmentFormats(gpu.caps, true, true), attached, frameBuffer)
    {
      created, attached := [], [];
      if !frameBuffer.Valid? {
        frameBuffer, attached := CreateFrameBuffer(true, true);
        ghost var fmts := AttachmentFormats(gpu.caps, true, true);
        created := FrameBufferEvents(fmts, attached, frameBuffer);
        TextureEventsCreateAttachments(fmts, attached);
        FrameBufferEventsCreateOne(old(trace), fmts, attached, frameBuffer);
      }
      assert FrameBufferCreations(old(trace) + created) == FrameBufferCreations(old(trace)) + FrameBufferCreations(created) &&
        Calls(old(trace) + created) == Calls(old(trace)) by {
        CreationsConcat(old(trace), created);
        NoCalls(created);
        CallsConcat(old(trace), created);
      }
    }

    /** The reset hook, which finds the new size already stored. */
    method CallResetHook()
      requires Valid()
      modifies this`trace
      ensures Valid()
      ensures trace == old(trace) + [Called(OnReset(width as nat, height as nat))]
      ensures FrameBufferCreations(trace) == FrameBufferCreations(old(trace))
      ensures Calls(trace) == Calls(old(trace)) + [OnReset(width as nat, height as nat)]
    {
      ghost var hook := [Called(OnReset(width as nat, height as nat))];
      assert FrameBufferCreations(trace + hook) == FrameBufferCreations(trace) &&
        Calls(trace + hook) == Calls(trace) + [OnReset(width as nat, height as nat)] by {
        CreationsConcat(trace, hook);
        assert FrameBufferCreations(hook) == 0;
        OnlyCalls(hook);
        CallsConcat(trace, hook);
      }
      AppendEvent(trace, hook[0]);
      trace := trace + hook;
    }

    method Reset(w: uint16, h: uint16) returns (ghost attached: seq<Handle>)
      requires Valid()
      modifies this`frameBuffer, this`width, this`height, this`trace, gpu
      ensures Valid()
      ensures width == w && height == h
      ensures old(frameBuffer).Valid? ==> frameBuffer == old(frameBuffer) && trace == old(trace) + [Called(OnReset(w as nat, h as nat))]
      ensures old(frameBuffer).Invalid? ==>
        |attached| == |AttachmentFormats(gpu.caps, true, true)| &&
        trace == old(trace) + FrameBufferEvents(AttachmentFormats(gpu.caps, true, true), attached, frameBuffer) + [Called(OnReset(w as nat, h as nat))]
      ensures FrameBufferCreations(trace) == FrameBufferCreations(old(trace)) + if old(frameBuffer).Valid? then 0 else 1
      ensures Calls(trace) == Calls(old(trace)) + [OnReset(w as nat, h as nat)]
    {
      ghost var created;
      created, attached := EnsureFrameBuffer();
      width := w;
      height := h;
      CallResetHook();
    }

    /** Submits the tonemap blit on the given view. */
    method BlitToScreen(view: nat, scene: Scene)
      modifies this`trace
      ensures trace == old(trace) + BlitEvents(view, scene, CurrentHandles())
    {
      var exposure := if scene.loaded then scene.camera.exposure else 1.0;
      trace := trace + [UniformSet(exposureVecUniform, exposure)];
      trace := trace + [Submitted(view, blitProgram)];
    }

    /** One frame. fitScale and sky are the results of the floating-point
        computations at the start of a loaded frame. */
    method Render(dt: real, scene: Scene, fitScale: real, sky: Rgb8)
      requires Valid()
      modifies this`time, this`scale, this`clearColor, this`trace
      ensures Valid()
      ensures time == old(time) + dt
      ensures scale == FrameScale(scene, fitScale)
      ensures clearColor == FrameClearColor(scene, sky)
      ensures trace == old(trace) + RenderEvents(dt, time, scene, fitScale, sky, CurrentHandles())
    {
      ghost var hs := CurrentHandles();
      time := time + dt;
      if scene.loaded {
        scale := fitScale;
        trace := trace + [UniformSet(sceneScaleVecUniform, scale)];
        clearColor := PackClearColor(sky);
      } else {
        scale := 1.0;
        clearColor := NoSceneClearColor;
      }
      trace := trace + [Called(OnRender(dt, time, scale, clearColor))];
      BlitToScreen(BlitView, scene);
      ghost var es := RenderEvents(dt, time, scene, fitScale, sky, hs);
      assert trace == old(trace) + es;
      assert LiveFrameBuffers(old(trace) + es) == LiveFrameBuffers(old(trace)) &&
        FrameBufferDestroysSafe(old(trace) + es) by {
        RenderOrder(dt, time, scene, fitScale, sky, hs);
        FrameBufferNeutral(old(trace), es);
      }
    }

    method Shutdown()
      requires Valid()
      modifies this`frameBuffer, this`blitProgram, this`blitSampler, this`normalMatrixUniform,
        this`exposureVecUniform, this`sceneScaleVecUniform, this`quadVB, this`trace
      ensures Valid() && LiveFrameBuffers(trace) == {}
      ensures trace == old(trace) + ShutdownEvents(old(CurrentHandles()))
      ensures CurrentHandles() == AllInvalid
    {
      ghost var hs := CurrentHandles();
      ghost var es := [Called(OnShutdown), Called(PbrShutdown), Called(LightsShutdown)];
      es := es + [Destroyed(ProgramKind, blitProgram),
                  Destroyed(UniformKind, blitSampler),
                  Destroyed(UniformKind, normalMatrixUniform),
                  Destroyed(UniformKind, exposureVecUniform),
                  Destroyed(UniformKind, sceneScaleVecUniform),
                  Destroyed(VertexBufferKind, quadVB)];
      if frameBuffer.Valid? {
        es := es + [Destroyed(FrameBufferKind, frameBuffer)];
      }
      assert es == ShutdownEvents(hs);
      assert LiveFrameBuffers(trace + es) == {} && FrameBufferDestroysSafe(trace + es) by {
        ShutdownReleasesFrameBuffer(trace, hs);
      }
      trace := trace + es;

      blitProgram := Invalid;
      blitSampler, normalMatrixUniform, exposureVecUniform, sceneScaleVecUniform := Invalid, Invalid, Invalid, Invalid;
      quadVB := Invalid;
      frameBuffer := Invalid;
    }
  }
}
