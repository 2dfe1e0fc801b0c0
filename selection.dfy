/** The renderer's pure selections: the shader directory of a backend and
    the formats of the offscreen framebuffer's attachments. */
module Selection {
  import opened Bgfx

  // ----- Shader directory (Renderer::shaderDir) -----

  /** Sentinel directory for backends without a precompiled shader set. */
  const UnknownShaderDir: string := "???"

  /** The directory holding the precompiled shader binaries of a backend. */
  function ShaderDir(r: RendererType): (path: string)
    ensures |path| > 0
  {
    match r
    case Noop | Direct3D9 => "shaders/dx9/"
    case Direct3D11 | Direct3D12 => "shaders/dx11/"
    case Gnm => UnknownShaderDir
    case Metal => "shaders/metal/"
    case OpenGL => "shaders/glsl/"
    case OpenGLES => "shaders/essl/"
    case Vulkan => "shaders/spirv/"
    case Count => UnknownShaderDir
  }

  /** The same mapping as a lookup table: backends with a known shader set. */
  const KnownShaderDirs: map<RendererType, string> := map[
    Noop := "shaders/dx9/", Direct3D9 := "shaders/dx9/",
    Direct3D11 := "shaders/dx11/", Direct3D12 := "shaders/dx11/",
    Metal := "shaders/metal/", OpenGL := "shaders/glsl/",
    OpenGLES := "shaders/essl/", Vulkan := "shaders/spirv/"]

  /** The switch agrees with the table, and falls back to the sentinel
      exactly for the backends the table leaves out. */
  lemma ShaderDirMatchesTable(r: RendererType)
    ensures r in KnownShaderDirs ==> ShaderDir(r) == KnownShaderDirs[r]
    ensures r !in KnownShaderDirs <==> ShaderDir(r) == UnknownShaderDir
  {
  }

  /** Two distinct backends share a directory only when they share a binary
      format: Noop with Direct3D9, Direct3D11 with Direct3D12, and the two
      backends without a shader set. */
  lemma ShaderDirSharedOnlyWithinFamily(a: RendererType, b: RendererType)
    requires a != b && ShaderDir(a) == ShaderDir(b)
    ensures {a, b} == {Noop, Direct3D9} || {a, b} == {Direct3D11, Direct3D12} || {a, b} == {Gnm, Count}
  {
  }

  /** The tonemap shader file names. */
  const VsTonemap: string := "vs_tonemap.bin"
  const FsTonemap: string := "fs_tonemap.bin"

  /** The shader paths fit the 128-character buffers they are formatted into
      (127 characters and the terminator), so formatting never truncates and
      the path is the plain concatenation. */
  lemma ShaderPathsFitBuffers(r: RendererType)
    ensures |ShaderDir(r) + VsTonemap| < 128 && |ShaderDir(r) + FsTonemap| < 128
    ensures ShaderDir(r) != UnknownShaderDir ==>
      ShaderDir(r)[..8] == "shaders/" && ShaderDir(r)[|ShaderDir(r)| - 1] == '/'
  {
  }

  // ----- Framebuffer formats (Renderer::createFrameBuffer) -----

  /** The colour attachment's format. */
  function ColorFormat(hdr: bool): TextureFormat
  {
    if hdr then RGBA16F else BGRA8
  }

  predicate IsDepthFormat(f: TextureFormat)
  {
    f == D16 || f == D24S8 || f == D32
  }

  /** The depth formats tried in order before the unconditional fallback. */
  const DepthPreference: seq<TextureFormat> := [D16, D24S8]

  /** The first format of prefs that is supported, else the fallback. */
  function FirstSupported(prefs: seq<TextureFormat>, supported: set<TextureFormat>, fallback: TextureFormat): (f: TextureFormat)
    ensures f == fallback || (f in prefs && f in supported)
    ensures (exists i :: 0 <= i < |prefs| && prefs[i] in supported) ==> f in prefs && f in supported
  {
    if prefs == [] then fallback
    else if prefs[0] in supported then prefs[0]
    else
      var f := FirstSupported(prefs[1..], supported, fallback);
      assert forall i :: 1 <= i < |prefs| ==> prefs[i] == prefs[1..][i - 1];
      f
  }

  /** The search picks the earliest supported preference. */
  lemma {:induction false} FirstSupportedIsEarliest(prefs: seq<TextureFormat>, supported: set<TextureFormat>, fallback: TextureFormat, i: nat)
    requires i < |prefs| && prefs[i] in supported
    requires forall k :: 0 <= k < i ==> prefs[k] !in supported
    ensures FirstSupported(prefs, supported, fallback) == prefs[i]
  {
    if i > 0 {
      assert prefs[0] !in supported;
      FirstSupportedIsEarliest(prefs[1..], supported, fallback, i - 1);
    }
  }

  /** With no preference supported, the search yields the fallback. */
  lemma {:induction false} FirstSupportedFallsBack(prefs: seq<TextureFormat>, supported: set<TextureFormat>, fallback: TextureFormat)
    requires forall k :: 0 <= k < |prefs| ==> prefs[k] !in supported
    ensures FirstSupported(prefs, supported, fallback) == fallback
  {
    if prefs != [] {
      FirstSupportedFallsBack(prefs[1..], supported, fallback);
    }
  }

  /** The colour attachment is half-float RGBA exactly for an HDR target and
      8-bit BGRA otherwise, and it is never a depth format, so never the
      format of the depth attachment. */
  lemma ColorFormatChoice(hdr: bool, caps: Caps)
    ensures ColorFormat(hdr) == RGBA16F <==> hdr
    ensures ColorFormat(hdr) == BGRA8 <==> !hdr
    ensures !IsDepthFormat(ColorFormat(hdr)) && ColorFormat(hdr) != DepthFormat(caps)
  {
  }

  /** The depth attachment's format: D16 if supported, else D24S8 if
      supported, else D32 whether or not it is supported. */
  function DepthFormat(caps: Caps): (f: TextureFormat)
    ensures IsDepthFormat(f)
    ensures f == D16 <==> D16 in caps.writeOnlyTargetFormats
    ensures f == D24S8 <==> D16 !in caps.writeOnlyTargetFormats && D24S8 in caps.writeOnlyTargetFormats
    ensures f == D32 <==> D16 !in caps.writeOnlyTargetFormats && D24S8 !in caps.writeOnlyTargetFormats
  {
    if D16 in caps.writeOnlyTargetFormats then D16
    else if D24S8 in caps.writeOnlyTargetFormats then D24S8
    else D32
  }

  /** The ternary chain is the first-supported search over the preference list. */
  lemma DepthFormatIsFirstSupported(caps: Caps)
    ensures DepthFormat(caps) == FirstSupported(DepthPreference, caps.writeOnlyTargetFormats, D32)
  {
    assert DepthPreference[1..] == [D24S8];
    assert DepthPreference[1..][1..] == [];
  }

  /** The formats of the textures attached to the framebuffer, in attachment
      order: the colour format when it is valid as a render target, then the
      depth format when depth is asked for. */
  function AttachmentFormats(caps: Caps, hdr: bool, depth: bool): (fmts: seq<TextureFormat>)
    ensures |fmts| == (if ColorFormat(hdr) in caps.renderTargetFormats then 1 else 0) + (if depth then 1 else 0) <= 2
    ensures ColorFormat(hdr) in fmts <==> ColorFormat(hdr) in caps.renderTargetFormats
    ensures ColorFormat(hdr) in caps.renderTargetFormats ==> fmts[0] == ColorFormat(hdr)
    ensures depth <==> |fmts| > 0 && IsDepthFormat(fmts[|fmts| - 1])
    ensures depth ==> fmts[|fmts| - 1] == DepthFormat(caps)
  {
    (if ColorFormat(hdr) in caps.renderTargetFormats then [ColorFormat(hdr)] else [])
    + (if depth then [DepthFormat(caps)] else [])
  }
}
