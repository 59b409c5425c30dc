/**
 * The GLES2 renderer of render/gles2/renderer.c: creation with its
 * extension gating and program linking, the viewport that `begin`
 * records, the shader and texture target chosen for a texture, the read
 * format it prefers and the geometry of a pixel read-back. GL calls are
 * not modelled: their outcomes are inputs, and the glReadPixels calls a
 * read-back makes are its result. The pixel format table
 * (render/gles2/pixel_format.c) is not part of this model: a lookup in it
 * is an input, None when the format is unknown.
 */
module Gles2 {
  import opened CInt
  import opened Wrappers
  import opened Extensions
  import Log

  /** GL_DEBUG_TYPE_*_KHR. */
  const GL_DEBUG_TYPE_ERROR_KHR: int := 0x824C
  const GL_DEBUG_TYPE_DEPRECATED_BEHAVIOR_KHR: int := 0x824D
  const GL_DEBUG_TYPE_UNDEFINED_BEHAVIOR_KHR: int := 0x824E
  const GL_DEBUG_TYPE_PORTABILITY_KHR: int := 0x824F
  const GL_DEBUG_TYPE_PERFORMANCE_KHR: int := 0x8250
  const GL_DEBUG_TYPE_OTHER_KHR: int := 0x8251
  const GL_DEBUG_TYPE_MARKER_KHR: int := 0x8268
  const GL_DEBUG_TYPE_PUSH_GROUP_KHR: int := 0x8269
  const GL_DEBUG_TYPE_POP_GROUP_KHR: int := 0x826A

  const GL_BGRA_EXT: int := 0x80E1
  const GL_TEXTURE_2D: int := 0x0DE1
  const GL_TEXTURE_EXTERNAL_OES: int := 0x8D65

  const WL_SHM_FORMAT_XRGB8888: u32 := 1
  const WL_SHM_FORMAT_XBGR8888: u32 := 0x34324258

  /** WLR_RENDERER_READ_PIXELS_Y_INVERT: rows were stored bottom row first. */
  const READ_PIXELS_Y_INVERT: u32 := 1

  /**
   * gles2_log_importance_to_wlr: GL errors and undefined behaviour are
   * errors, every other message type, known or not, is debug output.
   */
  function LogImportance(kind: int): (r: Log.Importance)
    ensures r == Log.Error <==> kind == GL_DEBUG_TYPE_ERROR_KHR || kind == GL_DEBUG_TYPE_UNDEFINED_BEHAVIOR_KHR
    ensures r != Log.Error ==> r == Log.Debug
  {
    match kind
    case 0x824C => Log.Error
    case 0x824D => Log.Debug
    case 0x824E => Log.Error
    case 0x824F => Log.Debug
    case 0x8250 => Log.Debug
    case 0x8251 => Log.Debug
    case 0x8268 => Log.Debug
    case 0x8269 => Log.Debug
    case 0x826A => Log.Debug
    case _ => Log.Debug
  }

  /** An entry of the pixel format table. */
  datatype PixelFormat = PixelFormat(wlFormat: u32, glFormat: int, glType: int, bpp: int, hasAlpha: bool)

  /** The GL program of each shader; 0 where none was linked. */
  datatype Shaders = Shaders(quad: int, ellipse: int, texRgba: int, texRgbx: int, texExt: int)

  /** The programs in the order the renderer links and deletes them. */
  function ProgramList(s: Shaders): (l: seq<int>)
    ensures |l| == 5
  {
    [s.quad, s.ellipse, s.texRgba, s.texRgbx, s.texExt]
  }

  datatype ShaderKind = QuadShader | EllipseShader | TexRgba | TexRgbx | TexExt

  function Program(s: Shaders, k: ShaderKind): int
  {
    match k
    case QuadShader => s.quad
    case EllipseShader => s.ellipse
    case TexRgba => s.texRgba
    case TexRgbx => s.texRgbx
    case TexExt => s.texExt
  }

  /** The kinds of GLES2 texture. */
  datatype TextureType = GlTex | WlDrmGl | WlDrmExt | Dmabuf

  datatype Texture = Texture(kind: TextureType, hasAlpha: bool, glTex: int, imageTex: int)

  /** What a texture draw binds: the shader, the texture target and the texture name. */
  datatype Binding = Binding(shader: ShaderKind, target: int, texId: int)

  /** One glReadPixels call: origin, size and the byte offset into the caller's buffer. */
  datatype ReadCall = ReadCall(x: int, y: int, width: int, height: int, offset: int)

  /** `width * fmt->bpp / 8`, computed in 32-bit unsigned arithmetic. */
  function PackStride(width: u32, bpp: int): int
  {
    U32(width * bpp) / 8
  }

  /** The single glReadPixels call is possible: rows are packed, start at column 0, and a flag can be returned. */
  predicate SinglePath(f: PixelFormat, flagsGiven: bool, stride: u32, width: u32, dstX: u32)
  {
    PackStride(width, f.bpp) == stride && dstX == 0 && flagsGiven
  }

  /**
   * The byte offset of destination row `i`: `dst_y * stride` (32-bit), then
   * `i * stride`, then `dst_x * bpp / 8` (32-bit).
   */
  function RowOffset(f: PixelFormat, stride: u32, dstX: u32, dstY: u32, i: nat): int
  {
    U32(dstY * stride) + i * stride + U32(dstX * f.bpp) / 8
  }

  /** Row `i` of the row-by-row read: one row at `viewport_height - src_y - i - 1`, as a GLint. */
  function RowCall(f: PixelFormat, viewportHeight: u32, stride: u32, width: u32,
                   srcX: u32, srcY: u32, dstX: u32, dstY: u32, i: nat): ReadCall
  {
    ReadCall(ToI32(srcX), ToI32(viewportHeight - srcY - i - 1), ToI32(width), 1, RowOffset(f, stride, dstX, dstY, i))
  }

  /** The one call of the single path: the whole block from `viewport_height - height - src_y`. */
  function SingleCall(viewportHeight: u32, stride: u32, width: u32, height: u32,
                      srcX: u32, srcY: u32, dstY: u32): ReadCall
  {
    ReadCall(ToI32(srcX), ToI32(viewportHeight - height - srcY), ToI32(width), ToI32(height), U32(dstY * stride))
  }

  /**
   * Without wrap-around, the row path stores GL row `y0 + height - 1 - i`
   * in destination row `i`, `stride` bytes apart: the single call stores
   * the same rows from the bottom up, which is what the Y_INVERT flag
   * says.
   */
  lemma {:induction false} RowsMirrorSingleCall(f: PixelFormat, viewportHeight: u32, stride: u32, width: u32,
                                                height: u32, srcX: u32, srcY: u32, dstY: u32, i: nat)
    requires srcY + height <= viewportHeight < TWO_31 && i < height
    ensures var single := SingleCall(viewportHeight, stride, width, height, srcX, srcY, dstY);
      var row := RowCall(f, viewportHeight, stride, width, srcX, srcY, 0, dstY, i);
      row.y == single.y + (height - 1 - i) && row.offset == single.offset + i * stride &&
      row.x == single.x && row.width == single.width
  {
    assert U32(0 * f.bpp) == 0;
  }

  /** With no 32-bit overflow the row offset is the plain `dst_y*stride + i*stride + dst_x*bpp/8`. */
  lemma RowOffsetPlain(f: PixelFormat, stride: u32, dstX: u32, dstY: u32, i: nat)
    requires 0 <= f.bpp && dstY * stride < TWO_32 && dstX * f.bpp < TWO_32
    ensures RowOffset(f, stride, dstX, dstY, i) == dstY * stride + i * stride + dstX * f.bpp / 8
  {
    assert 0 <= dstY * stride && 0 <= dstX * f.bpp;
  }

  /**
   * `struct wlr_gles2_renderer`: the extensions found at creation, the
   * linked shader programs, and the viewport of the current frame.
   */
  class Renderer {
    const readFormatBgraExt: bool
    const debugKhr: bool
    const eglImageExternalOes: bool
    const shaders: Shaders
    var viewportWidth: u32
    var viewportHeight: u32

    /** The programs every draw may use are linked; tex_ext exactly when the external-image extension is there. */
    ghost predicate Linked()
    {
      shaders.quad != 0 && shaders.ellipse != 0 && shaders.texRgba != 0 && shaders.texRgbx != 0 &&
      (eglImageExternalOes <==> shaders.texExt != 0)
    }

    constructor(readFormatBgraExt: bool, debugKhr: bool, eglImageExternalOes: bool, shaders: Shaders)
      ensures this.readFormatBgraExt == readFormatBgraExt && this.debugKhr == debugKhr
      ensures this.eglImageExternalOes == eglImageExternalOes && this.shaders == shaders
      ensures viewportWidth == 0 && viewportHeight == 0
    {
      this.readFormatBgraExt := readFormatBgraExt;
      this.debugKhr := debugKhr;
      this.eglImageExternalOes := eglImageExternalOes;
      this.shaders := shaders;
      viewportWidth := 0;
      viewportHeight := 0;
    }

    /** gles2_begin: record the viewport size. */
    method Begin(width: u32, height: u32)
      modifies this
      ensures viewportWidth == width && viewportHeight == height
    {
      viewportWidth := width;
      viewportHeight := height;
    }

    /**
     * The switch of gles2_render_texture_with_matrix: GL-sampled textures
     * use the rgba or rgbx shader on GL_TEXTURE_2D, image-backed ones the
     * external shader on GL_TEXTURE_EXTERNAL_OES, which fails without the
     * external-image extension. Only GLTEX textures bind their GL texture;
     * the others bind their image texture.
     */
    function TextureBinding(t: Texture): (r: Option<Binding>)
      ensures r.None? <==> (t.kind == WlDrmExt || t.kind == Dmabuf) && !eglImageExternalOes
      ensures r.Some? ==>
        (r.value.target == GL_TEXTURE_2D <==> t.kind == GlTex || t.kind == WlDrmGl) &&
        (r.value.target == GL_TEXTURE_2D ==> r.value.shader == (if t.hasAlpha then TexRgba else TexRgbx)) &&
        (r.value.target != GL_TEXTURE_2D ==> r.value.shader == TexExt && r.value.target == GL_TEXTURE_EXTERNAL_OES) &&
        r.value.texId == (if t.kind == GlTex then t.glTex else t.imageTex)
    {
      match t.kind
      case GlTex | WlDrmGl =>
        var shader := if t.hasAlpha then TexRgba else TexRgbx;
        Some(Binding(shader, GL_TEXTURE_2D, if t.kind == GlTex then t.glTex else t.imageTex))
      case WlDrmExt | Dmabuf =>
        if !eglImageExternalOes then None
        else Some(Binding(TexExt, GL_TEXTURE_EXTERNAL_OES, t.imageTex))
    }

    /** A texture draw on a created renderer always uses a program that was linked. */
    lemma DrawUsesLinkedProgram(t: Texture)
      requires Linked()
      ensures TextureBinding(t).Some? ==> Program(shaders, TextureBinding(t).value.shader) != 0
    {
    }

    /**
     * gles2_preferred_read_format: the format matching what GL reports,
     * otherwise XRGB8888 when BGRA can be read back and XBGR8888 when not.
     */
    function PreferredReadFormat(matched: Option<PixelFormat>): (r: u32)
      ensures matched.Some? ==> r == matched.value.wlFormat
      ensures matched.None? ==> (r == WL_SHM_FORMAT_XRGB8888 <==> readFormatBgraExt)
      ensures matched.None? ==> (r == WL_SHM_FORMAT_XBGR8888 <==> !readFormatBgraExt)
    {
      match matched
      case Some(f) => f.wlFormat
      case None => if readFormatBgraExt then WL_SHM_FORMAT_XRGB8888 else WL_SHM_FORMAT_XBGR8888
    }

    /**
     * gles2_read_pixels: refuses an unknown format and a BGRA format
     * without the read-BGRA extension; otherwise reads with one call when
     * the single path is possible (and reports Y_INVERT), or row by row
     * (and reports no flags when asked). `flags` is the value stored
     * through the flags pointer, None when nothing is stored; `glOk` is
     * whether GL reported no error afterwards.
     */
    method ReadPixels(fmt: Option<PixelFormat>, flagsGiven: bool, stride: u32, width: u32, height: u32,
                      srcX: u32, srcY: u32, dstX: u32, dstY: u32, glOk: bool)
      returns (ok: bool, flags: Option<u32>, calls: seq<ReadCall>)
      ensures fmt.None? || (fmt.value.glFormat == GL_BGRA_EXT && !readFormatBgraExt) ==>
        !ok && flags.None? && calls == []
      ensures fmt.Some? && (fmt.value.glFormat != GL_BGRA_EXT || readFormatBgraExt) ==>
        ok == glOk &&
        (SinglePath(fmt.value, flagsGiven, stride, width, dstX) ==>
          calls == [SingleCall(viewportHeight, stride, width, height, srcX, srcY, dstY)] &&
          flags == Some(READ_PIXELS_Y_INVERT)) &&
        (!SinglePath(fmt.value, flagsGiven, stride, width, dstX) ==>
          |calls| == height &&
          (forall i :: 0 <= i < height ==>
            calls[i] == RowCall(fmt.value, viewportHeight, stride, width, srcX, srcY, dstX, dstY, i)) &&
          flags == (if flagsGiven then Some(0) else None))
    {
      if fmt.None? {
        return false, None, [];
      }
      var f := fmt.value;
      if f.glFormat == GL_BGRA_EXT && !readFormatBgraExt {
        return false, None, [];
      }
      var packStride := U32(width * f.bpp) / 8;
      if packStride == stride && dstX == 0 && flagsGiven {
        calls := [ReadCall(ToI32(srcX), ToI32(viewportHeight - height - srcY), ToI32(width), ToI32(height),
                           U32(dstY * stride))];
        flags := Some(READ_PIXELS_Y_INVERT);
      } else {
        calls := [];
        var i := 0;
        while i < height
          invariant 0 <= i <= height
          invariant |calls| == i
          invariant forall j :: 0 <= j < i ==>
            calls[j] == RowCall(f, viewportHeight, stride, width, srcX, srcY, dstX, dstY, j)
        {
          calls := calls + [ReadCall(ToI32(srcX), ToI32(viewportHeight - srcY - i - 1), ToI32(width), 1,
                                     U32(dstY * stride) + i * stride + U32(dstX * f.bpp) / 8)];
          i := i + 1;
        }
        flags := if flagsGiven then Some(0) else None;
      }
      ok := glOk;
    }
  }

  /**
   * link_program. `vertOk` and `fragOk` are the compile results (a shader
   * that fails to compile is deleted by compile_shader), `linkOk` the link
   * status. The program is returned only when all three succeed, 0
   * otherwise; every shader that was created is deleted either way, and a
   * program that fails to link is deleted too.
   */
  method LinkProgram(vert: int, vertOk: bool, frag: int, fragOk: bool, prog: int, linkOk: bool)
    returns (program: int, deletedShaders: seq<int>, deletedPrograms: seq<int>)
    ensures program == (if vertOk && fragOk && linkOk then prog else 0)
    ensures vert in deletedShaders
    ensures vertOk ==> frag in deletedShaders
    ensures !vertOk ==> deletedShaders == [vert]
    ensures deletedPrograms == (if vertOk && fragOk && !linkOk then [prog] else [])
  {
    deletedShaders := [];
    deletedPrograms := [];
    if !vertOk {
      deletedShaders := deletedShaders + [vert];
      return 0, deletedShaders, deletedPrograms;
    }
    if !fragOk {
      deletedShaders := deletedShaders + [frag];
      deletedShaders := deletedShaders + [vert];
      return 0, deletedShaders, deletedPrograms;
    }
    deletedShaders := deletedShaders + [vert, frag];
    if !linkOk {
      deletedPrograms := deletedPrograms + [prog];
      return 0, deletedShaders, deletedPrograms;
    }
    program := prog;
  }

  const EXT_BGRA8888: string := "GL_EXT_texture_format_BGRA8888"
  const EXT_READ_FORMAT_BGRA: string := "GL_EXT_read_format_bgra"
  const KHR_DEBUG: string := "GL_KHR_debug"
  const OES_EGL_IMAGE_EXTERNAL: string := "GL_OES_EGL_image_external"

  /**
   * Where linking stops: the index, in link order, of the first program
   * that is needed and came back 0; 5 when all needed ones linked. The
   * external-image program is needed only with its extension.
   */
  function FirstFailure(linked: Shaders, extOes: bool): (k: nat)
    ensures k <= 5
    ensures forall j :: 0 <= j < k && j < 4 ==> ProgramList(linked)[j] != 0
    ensures k == 4 ==> extOes && linked.texExt == 0
    ensures k < 4 ==> ProgramList(linked)[k] == 0
    ensures k == 5 ==>
      linked.quad != 0 && linked.ellipse != 0 && linked.texRgba != 0 &&
      linked.texRgbx != 0 && (extOes ==> linked.texExt != 0)
  {
    if linked.quad == 0 then 0
    else if linked.ellipse == 0 then 1
    else if linked.texRgba == 0 then 2
    else if linked.texRgbx == 0 then 3
    else if extOes && linked.texExt == 0 then 4
    else 5
  }

  /** The renderer's shader fields when linking stops at `k`: the ones reached so far, zero (calloc) after. */
  function ShadersAt(linked: Shaders, k: nat, extOes: bool): Shaders
  {
    Shaders(linked.quad,
      if k >= 1 then linked.ellipse else 0,
      if k >= 2 then linked.texRgba else 0,
      if k >= 3 then linked.texRgbx else 0,
      if k >= 4 && extOes then linked.texExt else 0)
  }

  /**
   * wlr_gles2_renderer_create. It fails without the GL API, without
   * memory, when the context cannot be made current on an EGL platform,
   * without the BGRA8888 texture extension, and when a needed program
   * fails to link; the external-image program is linked only with that
   * extension. On the error path after linking began every program field
   * is deleted (those not reached are still 0). `linked` holds what each
   * link_program call returns.
   */
  method CreateRenderer(glapiOk: bool, allocOk: bool, platformSet: bool, makeCurrentOk: bool, exts: string,
                        debugProcs: bool, imageTargetProc: bool, linked: Shaders)
    returns (r: Option<Renderer>, deletedPrograms: seq<int>)
    ensures var extOes := Advertised(exts, OES_EGL_IMAGE_EXTERNAL) && imageTargetProc;
      var reachesLinking := glapiOk && allocOk && (!platformSet || makeCurrentOk) && Advertised(exts, EXT_BGRA8888);
      (r.Some? <==> reachesLinking && FirstFailure(linked, extOes) == 5) &&
      (!reachesLinking ==> deletedPrograms == []) &&
      (reachesLinking && r.None? ==>
        deletedPrograms == ProgramList(ShadersAt(linked, FirstFailure(linked, extOes), extOes))) &&
      (r.Some? ==>
        fresh(r.value) && r.value.Linked() && deletedPrograms == [] &&
        r.value.shaders == ShadersAt(linked, 5, extOes) &&
        r.value.readFormatBgraExt == Advertised(exts, EXT_READ_FORMAT_BGRA) &&
        r.value.debugKhr == (Advertised(exts, KHR_DEBUG) && debugProcs) &&
        r.value.eglImageExternalOes == extOes &&
        r.value.viewportWidth == 0 && r.value.viewportHeight == 0)
  {
    deletedPrograms := [];
    if !glapiOk || !allocOk {
      return None, deletedPrograms;
    }
    if platformSet && !makeCurrentOk {
      return None, deletedPrograms;
    }
    var bgra := CheckExt(exts, EXT_BGRA8888);
    if !bgra {
      return None, deletedPrograms;
    }
    var readBgra, debugKhr, extOes := RendererExts(exts, debugProcs, imageTargetProc);
    var shaders := Shaders(0, 0, 0, 0, 0);
    shaders := shaders.(quad := linked.quad);
    if shaders.quad == 0 {
      return None, ProgramList(shaders);
    }
    shaders := shaders.(ellipse := linked.ellipse);
    if shaders.ellipse == 0 {
      return None, ProgramList(shaders);
    }
    shaders := shaders.(texRgba := linked.texRgba);
    if shaders.texRgba == 0 {
      return None, ProgramList(shaders);
    }
    shaders := shaders.(texRgbx := linked.texRgbx);
    if shaders.texRgbx == 0 {
      return None, ProgramList(shaders);
    }
    if extOes {
      shaders := shaders.(texExt := linked.texExt);
      if shaders.texExt == 0 {
        return None, ProgramList(shaders);
      }
    }
    var renderer := new Renderer(readBgra, debugKhr, extOes, shaders);
    r := Some(renderer);
  }

  /** The three optional extensions the renderer records. */
  method RendererExts(exts: string, debugProcs: bool, imageTargetProc: bool)
    returns (readBgra: bool, debugKhr: bool, extOes: bool)
    ensures readBgra == Advertised(exts, EXT_READ_FORMAT_BGRA)
    ensures debugKhr == (Advertised(exts, KHR_DEBUG) && debugProcs)
    ensures extOes == (Advertised(exts, OES_EGL_IMAGE_EXTERNAL) && imageTargetProc)
  {
    readBgra := CheckExt(exts, EXT_READ_FORMAT_BGRA);
    var khr := CheckExt(exts, KHR_DEBUG);
    debugKhr := khr && debugProcs;
    var oes := CheckExt(exts, OES_EGL_IMAGE_EXTERNAL);
    extOes := oes && imageTargetProc;
  }

  /**
   * On the error path every program that linked before the failure is
   * deleted, and nothing past the failure point is touched.
   */
  lemma ErrorPathDeletesLinkedPrograms(linked: Shaders, extOes: bool, j: nat)
    requires FirstFailure(linked, extOes) < 5
    ensures var k := FirstFailure(linked, extOes); var deleted := ProgramList(ShadersAt(linked, k, extOes));
      (j < k ==> ProgramList(linked)[j] != 0 && deleted[j] == ProgramList(linked)[j]) &&
      (k < j < 5 ==> deleted[j] == 0)
  {
  }
}
