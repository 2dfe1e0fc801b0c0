/** The slice of the bgfx graphics library that the renderer relies on: the
    backend identity, the texture formats it names, the capability table it
    queries, and handle allocation. The library itself is foreign; handles
    are opaque ids and every creation may fail with the invalid handle. */
module Bgfx {

  /** bgfx::RendererType::Enum, in the library's order. */
  datatype RendererType =
    | Noop | Direct3D9 | Direct3D11 | Direct3D12 | Gnm
    | Metal | OpenGLES | OpenGL | Vulkan | Count

  /** The members of bgfx::TextureFormat::Enum that the renderer names. */
  datatype TextureFormat = BGRA8 | RGBA16F | D16 | D24S8 | D32

  /** What the renderer asks of bgfx::getCaps() and bgfx::isTextureValid():
      the backend, the texture-origin convention, and which formats can be
      created as a sampled render target (BGFX_TEXTURE_RT with clamped
      sampling) or as a write-only render target (BGFX_TEXTURE_RT_WRITE_ONLY). */
  datatype Caps = Caps(
    rendererType: RendererType,
    originBottomLeft: bool,
    renderTargetFormats: set<TextureFormat>,
    writeOnlyTargetFormats: set<TextureFormat>)

  /** A resource handle: BGFX_INVALID_HANDLE, or an id bound to a live resource.
      bgfx::isValid(h) is h.Valid?. */
  datatype Handle = Invalid | Valid(id: nat)

  /** bgfx::UniformType::Enum, as far as the renderer uses it. */
  datatype UniformType = Sampler | Vec4 | Mat3

  /** The library's handle allocator. A creation either fails, returning the
      invalid handle, or returns an id never handed out before. */
  class Gpu {
    const caps: Caps
    var nextId: nat

    constructor (caps: Caps)
      ensures this.caps == caps && nextId == 0
    {
      this.caps := caps;
      nextId := 0;
    }

    method Create() returns (h: Handle)
      modifies this
      ensures h.Invalid? ==> nextId == old(nextId)
      ensures h.Valid? ==> h.id == old(nextId) && nextId == old(nextId) + 1
    {
      var ok: bool :| true;
      if ok {
        h := Valid(nextId);
        nextId := nextId + 1;
      } else {
        h := Invalid;
      }
    }
  }
}
