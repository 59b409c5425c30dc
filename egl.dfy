/**
 * The decision logic of render/egl.c: reading EGL attribute lists,
 * choosing a config, mapping debug-message types to log importance, the
 * context attribute list, which extensions are in use, and the guards of
 * buffer-age, image and surface operations. The EGL entry points
 * themselves are inputs: whether a call succeeds and what it answers.
 */
module Egl {
  import opened Wrappers
  import opened Text
  import opened Extensions
  import Log

  const EGL_NONE: int := 0x3038
  const EGL_BUFFER_SIZE: int := 0x3020
  const EGL_RENDERABLE_TYPE: int := 0x3040
  const EGL_OPENGL_ES2_BIT: int := 0x0004
  const EGL_CONTEXT_CLIENT_VERSION: int := 0x3098
  const EGL_CONTEXT_PRIORITY_LEVEL_IMG: int := 0x3100
  const EGL_CONTEXT_PRIORITY_HIGH_IMG: int := 0x3101
  const EGL_CONTEXT_PRIORITY_MEDIUM_IMG: int := 0x3102
  const EGL_PLATFORM_GBM_MESA: int := 0x31D7
  const EGL_PLATFORM_WAYLAND_EXT: int := 0x31D8
  const EGL_PLATFORM_SURFACELESS_MESA: int := 0x31DD
  const EGL_DEBUG_MSG_CRITICAL_KHR: int := 0x33B9
  const EGL_DEBUG_MSG_ERROR_KHR: int := 0x33BA
  const EGL_DEBUG_MSG_WARN_KHR: int := 0x33BB
  const EGL_DEBUG_MSG_INFO_KHR: int := 0x33BC

  /**
   * The value an EGL attribute list gives `key`: the list is read as
   * key/value pairs up to the first EGL_NONE key.
   */
  function Lookup(attribs: seq<int>, key: int): (r: Option<int>)
    ensures r.Some? ==> key != EGL_NONE
    decreases |attribs|
  {
    if |attribs| < 2 || attribs[0] == EGL_NONE then None
    else if attribs[0] == key then Some(attribs[1])
    else Lookup(attribs[2..], key)
  }

  /** The list is EGL_NONE-terminated: read pair by pair, the last entry is a key position holding EGL_NONE. */
  predicate Terminated(attribs: seq<int>)
  {
    |attribs| % 2 == 1 && attribs[|attribs| - 1] == EGL_NONE
  }

  /** A matched config qualifies when its visual id could be read and is the wanted one, or any is wanted. */
  predicate VisualAcceptable(visual: Option<int>, visualId: int)
  {
    visual.Some? && (visualId == 0 || visual.value == visualId)
  }

  /**
   * egl_get_config. `visuals` holds, for each config eglChooseConfig
   * matched, what eglGetConfigAttrib(EGL_NATIVE_VISUAL_ID) answered (None
   * when it failed). The result is the index of the config chosen: the
   * first acceptable one; none when eglGetConfigs fails or reports no
   * configs, when eglChooseConfig fails, or when no match is acceptable.
   */
  method GetConfig(getConfigsOk: bool, count: int, chooseOk: bool, visuals: seq<Option<int>>, visualId: int)
    returns (chosen: Option<nat>)
    ensures !getConfigsOk || count == 0 || !chooseOk ==> chosen.None?
    ensures chosen.Some? ==>
      chosen.value < |visuals| && VisualAcceptable(visuals[chosen.value], visualId) &&
      forall j :: 0 <= j < chosen.value ==> !VisualAcceptable(visuals[j], visualId)
    ensures getConfigsOk && count != 0 && chooseOk && chosen.None? ==>
      forall j :: 0 <= j < |visuals| ==> !VisualAcceptable(visuals[j], visualId)
  {
    if !getConfigsOk || count == 0 {
      return None;
    }
    if !chooseOk {
      return None;
    }
    for i := 0 to |visuals|
      invariant forall j :: 0 <= j < i ==> !VisualAcceptable(visuals[j], visualId)
    {
      if visuals[i].None? {
        continue;
      }
      if visualId == 0 || visuals[i].value == visualId {
        return Some(i);
      }
    }
    return None;
  }

  /**
   * egl_log_importance_to_wlr: critical, error and warning messages are
   * logged as errors; information and every other type as information.
   */
  function LogImportance(msgType: int): (r: Log.Importance)
    ensures r == Log.Error <==>
      msgType == EGL_DEBUG_MSG_CRITICAL_KHR || msgType == EGL_DEBUG_MSG_ERROR_KHR ||
      msgType == EGL_DEBUG_MSG_WARN_KHR
    ensures r != Log.Error ==> r == Log.Info
  {
    if msgType == EGL_DEBUG_MSG_CRITICAL_KHR then Log.Error
    else if msgType == EGL_DEBUG_MSG_ERROR_KHR then Log.Error
    else if msgType == EGL_DEBUG_MSG_WARN_KHR then Log.Error
    else if msgType == EGL_DEBUG_MSG_INFO_KHR then Log.Info
    else Log.Info
  }

  /**
   * The context attribute list of wlr_egl_init, filled into a five-entry
   * array through a running index: client version 2, then the high
   * priority request only when EGL_IMG_context_priority is advertised and
   * the platform is GBM, then EGL_NONE. The index never passes the array's
   * capacity.
   */
  method ContextAttribs(extContextPriority: bool, platform: int) returns (attribs: seq<int>)
    ensures |attribs| <= 5 && Terminated(attribs)
    ensures Lookup(attribs, EGL_CONTEXT_CLIENT_VERSION) == Some(2)
    ensures Lookup(attribs, EGL_CONTEXT_PRIORITY_LEVEL_IMG).Some? <==>
      extContextPriority && platform == EGL_PLATFORM_GBM_MESA
    ensures Lookup(attribs, EGL_CONTEXT_PRIORITY_LEVEL_IMG).Some? ==>
      Lookup(attribs, EGL_CONTEXT_PRIORITY_LEVEL_IMG) == Some(EGL_CONTEXT_PRIORITY_HIGH_IMG)
  {
    var a := new int[5];
    var atti := 0;
    a[atti] := EGL_CONTEXT_CLIENT_VERSION;
    atti := atti + 1;
    a[atti] := 2;
    atti := atti + 1;
    var requestHighPriority := extContextPriority && platform == EGL_PLATFORM_GBM_MESA;
    if requestHighPriority {
      a[atti] := EGL_CONTEXT_PRIORITY_LEVEL_IMG;
      atti := atti + 1;
      a[atti] := EGL_CONTEXT_PRIORITY_HIGH_IMG;
      atti := atti + 1;
    }
    a[atti] := EGL_NONE;
    atti := atti + 1;
    attribs := a[..atti];
    var rest := attribs[2..];
    if requestHighPriority {
      assert rest[2..] == [EGL_NONE];
    } else {
      assert rest == [EGL_NONE];
    }
  }

  /**
   * egl_get_buffer_age: -1 when EGL_EXT_buffer_age is not advertised or
   * the surface query fails, otherwise the age the query reports.
   */
  function BufferAge(hasBufferAgeExt: bool, query: Option<int>): (age: int)
    ensures !hasBufferAgeExt || query.None? ==> age == -1
    ensures hasBufferAgeExt && query.Some? ==> age == query.value
  {
    if !hasBufferAgeExt then -1
    else match query
      case None => -1
      case Some(a) => a
  }

  /** Which of the optional entry points the EGL library exposes. */
  datatype EglProcs = EglProcs(
    createImage: bool, destroyImage: bool,
    swapWithDamageExt: bool, swapWithDamageKhr: bool,
    queryDmaBufFormats: bool, queryDmaBufModifiers: bool,
    exportQuery: bool, exportImage: bool,
    bindWaylandDisplay: bool, unbindWaylandDisplay: bool, queryWaylandBuffer: bool)

  /**
   * The extension detection of wlr_egl_init: the `exts` flags of
   * `struct wlr_egl` and the context-priority flag it keeps locally. Each
   * flag is set exactly when its name is a whole word of the EGL extension
   * string and, where the extension brings entry points, all of them were
   * loaded.
   */
  method DetectExtensions(exts: string, procs: EglProcs)
    returns (imageBaseKhr: bool, bufferAgeExt: bool, swapBuffersWithDamageExt: bool,
      swapBuffersWithDamageKhr: bool, imageDmabufImportExt: bool, imageDmabufImportModifiersExt: bool,
      imageDmaBufExportMesa: bool, bindWaylandDisplayWl: bool, contextPriority: bool)
    ensures imageBaseKhr <==> Advertised(exts, "EGL_KHR_image_base") && procs.createImage && procs.destroyImage
    ensures bufferAgeExt <==> Advertised(exts, "EGL_EXT_buffer_age")
    ensures swapBuffersWithDamageExt <==> Advertised(exts, "EGL_EXT_swap_buffers_with_damage") && procs.swapWithDamageExt
    ensures swapBuffersWithDamageKhr <==> Advertised(exts, "EGL_KHR_swap_buffers_with_damage") && procs.swapWithDamageKhr
    ensures imageDmabufImportExt <==> Advertised(exts, "EGL_EXT_image_dma_buf_import")
    ensures imageDmabufImportModifiersExt <==> Advertised(exts, "EGL_EXT_image_dma_buf_import_modifiers") && procs.queryDmaBufFormats && procs.queryDmaBufModifiers
    ensures imageDmaBufExportMesa <==> Advertised(exts, "EGL_MESA_image_dma_buf_export") && procs.exportQuery && procs.exportImage
    ensures bindWaylandDisplayWl <==> Advertised(exts, "EGL_WL_bind_wayland_display") && procs.bindWaylandDisplay && procs.unbindWaylandDisplay && procs.queryWaylandBuffer
    ensures contextPriority <==> Advertised(exts, "EGL_IMG_context_priority")
  {
    var imageBase, bufferAge, damageExt :=
      CheckThree(exts, "EGL_KHR_image_base", "EGL_EXT_buffer_age", "EGL_EXT_swap_buffers_with_damage");
    var damageKhr, dmabufImport, dmabufModifiers :=
      CheckThree(exts, "EGL_KHR_swap_buffers_with_damage", "EGL_EXT_image_dma_buf_import", "EGL_EXT_image_dma_buf_import_modifiers");
    var dmabufExport, bindWayland, priority :=
      CheckThree(exts, "EGL_MESA_image_dma_buf_export", "EGL_WL_bind_wayland_display", "EGL_IMG_context_priority");
    imageBaseKhr := imageBase && procs.createImage && procs.destroyImage;
    bufferAgeExt := bufferAge;
    swapBuffersWithDamageExt := damageExt && procs.swapWithDamageExt;
    swapBuffersWithDamageKhr := damageKhr && procs.swapWithDamageKhr;
    imageDmabufImportExt := dmabufImport;
    imageDmabufImportModifiersExt := dmabufModifiers && procs.queryDmaBufFormats && procs.queryDmaBufModifiers;
    imageDmaBufExportMesa := dmabufExport && procs.exportQuery && procs.exportImage;
    bindWaylandDisplayWl := bindWayland && procs.bindWaylandDisplay && procs.unbindWaylandDisplay && procs.queryWaylandBuffer;
    contextPriority := priority;
  }

  /** Three check_egl_ext lookups in a row. */
  method CheckThree(exts: string, a: string, b: string, c: string) returns (foundA: bool, foundB: bool, foundC: bool)
    ensures foundA <==> Advertised(exts, a)
    ensures foundB <==> Advertised(exts, b)
    ensures foundC <==> Advertised(exts, c)
  {
    foundA := CheckExt(exts, a);
    foundB := CheckExt(exts, b);
    foundC := CheckExt(exts, c);
  }

  /**
   * A library advertising only the modifiers extension does not thereby
   * have plain dma-buf import: the shorter name is a prefix, not a word.
   */
  lemma ModifiersAloneIsNotImport()
    ensures Advertised("EGL_EXT_image_dma_buf_import_modifiers", "EGL_EXT_image_dma_buf_import_modifiers")
    ensures !Advertised("EGL_EXT_image_dma_buf_import_modifiers", "EGL_EXT_image_dma_buf_import")
  {
    var word := "EGL_EXT_image_dma_buf_import_modifiers";
    var prefix := "EGL_EXT_image_dma_buf_import";
    assert forall i :: 0 <= i < |prefix| ==> word[i] == prefix[i];
    assert word[..|prefix|] == prefix;
    assert ' ' !in word;
    SingleToken(word, ' ');
    PrefixNotAdvertised(word, prefix);
  }

  /**
   * wlr_egl_destroy_image: false without EGL_KHR_image_base, true for a
   * null image, otherwise what eglDestroyImageKHR answers.
   */
  function DestroyImage(imageBaseKhr: bool, imageIsNull: bool, destroyOk: bool): (ok: bool)
    ensures !imageBaseKhr ==> !ok
    ensures imageBaseKhr && imageIsNull ==> ok
    ensures imageBaseKhr && !imageIsNull ==> ok == destroyOk
  {
    if !imageBaseKhr then false
    else if imageIsNull then true
    else destroyOk
  }

  /** wlr_egl_destroy_surface: true for a null surface, otherwise what eglDestroySurface answers. */
  function DestroySurface(surfaceIsNull: bool, destroyOk: bool): (ok: bool)
    ensures surfaceIsNull ==> ok
    ensures !surfaceIsNull ==> ok == destroyOk
  {
    if surfaceIsNull then true else destroyOk
  }
}
