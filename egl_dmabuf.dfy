/**
 * The dma-buf side of render/egl.c: the attribute list handed to
 * eglCreateImageKHR for an import, the format and modifier queries with
 * their fallback, the format set built from them, and the export guard.
 * `struct wlr_dmabuf_attributes` comes from include/wlr/render/dmabuf.h,
 * which is not part of this model; its field types are taken as int32_t
 * width and height, uint32_t format, flags, offsets and strides, uint64_t
 * modifier, int plane count and file descriptors, with four plane slots.
 */
module EglDmabuf {
  import opened CInt
  import opened Wrappers
  import Egl

  const EGL_WIDTH: int := 0x3057
  const EGL_HEIGHT: int := 0x3056
  const EGL_LINUX_DRM_FOURCC_EXT: int := 0x3271
  /** The per-plane attribute names, plane 0 to plane 3. */
  const PLANE_FD: seq<int> := [0x3272, 0x3275, 0x3278, 0x3440]
  const PLANE_OFFSET: seq<int> := [0x3273, 0x3276, 0x3279, 0x3441]
  const PLANE_PITCH: seq<int> := [0x3274, 0x3277, 0x327A, 0x3442]
  const PLANE_MODIFIER_LO: seq<int> := [0x3443, 0x3445, 0x3447, 0x3449]
  const PLANE_MODIFIER_HI: seq<int> := [0x3444, 0x3446, 0x3448, 0x344A]

  /** WLR_DMABUF_MAX_PLANES, and the capacity of the import attribute array. */
  const MAX_PLANES: nat := 4
  const ATTRIBS_CAPACITY: nat := 50

  const DRM_FORMAT_MOD_INVALID: u64 := 0x00ff_ffff_ffff_ffff
  const DRM_FORMAT_MOD_LINEAR: u64 := 0
  const DRM_FORMAT_ARGB8888: u32 := 0x34325241
  const DRM_FORMAT_XRGB8888: u32 := 0x34325258

  /** `struct wlr_dmabuf_attributes`. */
  datatype DmabufAttributes = DmabufAttributes(
    width: i32, height: i32, format: u32, flags: u32, modifier: u64,
    nPlanes: int, offset: seq<u32>, stride: seq<u32>, fd: seq<i32>)

  /** The plane arrays have their four slots. */
  predicate HasPlaneSlots(a: DmabufAttributes)
  {
    |a.offset| == MAX_PLANES && |a.stride| == MAX_PLANES && |a.fd| == MAX_PLANES
  }

  /** The attributes after `memset(attribs, 0, ...)`. */
  function ZeroAttributes(): (a: DmabufAttributes)
    ensures HasPlaneSlots(a) && a.nPlanes == 0 && a.modifier == 0
  {
    DmabufAttributes(0, 0, 0, 0, 0, 0, [0, 0, 0, 0], [0, 0, 0, 0], [0, 0, 0, 0])
  }

  /**
   * A modifier is passed explicitly unless it is DRM_FORMAT_MOD_INVALID
   * (no modifier known) or DRM_FORMAT_MOD_LINEAR (assumed supported).
   */
  predicate UsesModifier(modifier: u64)
  {
    modifier != DRM_FORMAT_MOD_INVALID && modifier != DRM_FORMAT_MOD_LINEAR
  }

  /** `modifier & 0xFFFFFFFF` and `modifier >> 32`, each stored into an EGLint. */
  function ModifierLo(modifier: u64): (lo: int)
    ensures IsI32(lo)
  {
    ToI32(modifier % TWO_32)
  }

  function ModifierHi(modifier: u64): (hi: int)
    ensures IsI32(hi)
  {
    ToI32(modifier / TWO_32)
  }

  /** The two EGLint halves carry the whole 64-bit modifier: reading them back as unsigned gives it again. */
  lemma ModifierHalves(modifier: u64)
    ensures FromI32(ModifierHi(modifier)) * TWO_32 + FromI32(ModifierLo(modifier)) == modifier
  {
    FromToI32(modifier % TWO_32);
    FromToI32(modifier / TWO_32);
  }

  /** Entries per plane in the import list: fd, offset and pitch, plus both modifier halves when a modifier is used. */
  function PlaneWidth(hasModifier: bool): (w: nat)
    ensures w == 6 || w == 10
  {
    if hasModifier then 10 else 6
  }

  /** Where the group of plane `n` starts, counted from the first plane's. */
  function Span(hasModifier: bool, n: nat): nat
  {
    if hasModifier then 10 * n else 6 * n
  }

  /** The number of planes the loop walks: none for a negative count. */
  function Planes(a: DmabufAttributes): nat
  {
    if a.nPlanes < 0 then 0 else a.nPlanes
  }

  /** The size and fourcc entries that open the import list. */
  function Header(a: DmabufAttributes): seq<int>
  {
    [EGL_WIDTH, a.width as int, EGL_HEIGHT, a.height as int, EGL_LINUX_DRM_FOURCC_EXT, ToI32(a.format)]
  }

  /** The entries for plane `i`: fd, offset, pitch and, with a modifier, its low and high halves. */
  function PlaneEntries(a: DmabufAttributes, i: nat, hasModifier: bool): (e: seq<int>)
    requires HasPlaneSlots(a) && i < MAX_PLANES
    ensures |e| == PlaneWidth(hasModifier)
  {
    LayoutEntries(a, i) + (if hasModifier then ModifierEntries(a, i) else [])
  }

  function LayoutEntries(a: DmabufAttributes, i: nat): (e: seq<int>)
    requires HasPlaneSlots(a) && i < MAX_PLANES
    ensures |e| == 6
  {
    [PLANE_FD[i], a.fd[i] as int, PLANE_OFFSET[i], ToI32(a.offset[i]), PLANE_PITCH[i], ToI32(a.stride[i])]
  }

  function ModifierEntries(a: DmabufAttributes, i: nat): (e: seq<int>)
    requires i < MAX_PLANES
    ensures |e| == 4
  {
    [PLANE_MODIFIER_LO[i], ModifierLo(a.modifier), PLANE_MODIFIER_HI[i], ModifierHi(a.modifier)]
  }

  /** The entries for planes 0 to n - 1, in order. */
  function PlanesEntries(a: DmabufAttributes, n: nat, hasModifier: bool): (e: seq<int>)
    requires HasPlaneSlots(a) && n <= MAX_PLANES
    ensures |e| == Span(hasModifier, n)
  {
    if n == 0 then [] else PlanesEntries(a, n - 1, hasModifier) + PlaneEntries(a, n - 1, hasModifier)
  }

  /** The import list: header, one group per plane, EGL_NONE. */
  function ImportAttribs(a: DmabufAttributes, hasModifier: bool): seq<int>
    requires HasPlaneSlots(a) && a.nPlanes <= MAX_PLANES
  {
    Header(a) + PlanesEntries(a, Planes(a), hasModifier) + [Egl.EGL_NONE]
  }

  /**
   * The import list fits the 50-entry array with room to spare and is
   * read pair by pair up to its closing EGL_NONE.
   */
  lemma ImportAttribsFit(a: DmabufAttributes, hasModifier: bool)
    requires HasPlaneSlots(a) && a.nPlanes <= MAX_PLANES
    ensures var l := ImportAttribs(a, hasModifier);
      |l| == 7 + Span(hasModifier, Planes(a)) && |l| < ATTRIBS_CAPACITY && Egl.Terminated(l)
  {
  }

  /** Plane `i`'s group sits at offset `w * i` of the plane entries. */
  lemma {:induction false} PlaneAt(a: DmabufAttributes, n: nat, i: nat, hasModifier: bool)
    requires HasPlaneSlots(a) && i < n <= MAX_PLANES
    ensures var k := Span(hasModifier, i); var e := PlanesEntries(a, n, hasModifier);
      k + PlaneWidth(hasModifier) <= |e| && e[k .. k + PlaneWidth(hasModifier)] == PlaneEntries(a, i, hasModifier)
  {
    var k := Span(hasModifier, i);
    var w := PlaneWidth(hasModifier);
    var prefix := PlanesEntries(a, n - 1, hasModifier);
    var last := PlaneEntries(a, n - 1, hasModifier);
    assert PlanesEntries(a, n, hasModifier) == prefix + last;
    if i < n - 1 {
      PlaneAt(a, n - 1, i, hasModifier);
      SliceOfConcat(prefix, last, k, k + w);
    } else {
      SliceOfConcat(prefix, last, |prefix|, |prefix| + |last|);
    }
  }

  lemma SliceOfConcat(x: seq<int>, y: seq<int>, lo: nat, hi: nat)
    requires lo <= hi <= |x| + |y|
    ensures hi <= |x| ==> (x + y)[lo..hi] == x[lo..hi]
    ensures lo == |x| && hi == |x| + |y| ==> (x + y)[lo..hi] == y
  {
  }

  lemma SliceAfter(x: seq<int>, y: seq<int>, lo: nat, hi: nat)
    requires |x| <= lo <= hi <= |x| + |y|
    ensures (x + y)[lo..hi] == y[lo - |x| .. hi - |x|]
  {
  }

  /** Writes `v` at index `atti` and moves on: `attribs[atti++] = v`. */
  method Put(l: array<int>, atti: nat, v: int) returns (next: nat)
    requires atti < l.Length
    modifies l
    ensures next == atti + 1 && l[..next] == old(l[..atti]) + [v]
  {
    l[atti] := v;
    next := atti + 1;
  }

  /** The size and fourcc entries, from the start of the array. */
  method PutHeader(l: array<int>, a: DmabufAttributes) returns (atti: nat)
    requires 6 <= l.Length
    modifies l
    ensures atti == 6 && l[..atti] == Header(a)
  {
    atti := 0;
    atti := Put(l, atti, EGL_WIDTH);
    atti := Put(l, atti, a.width);
    atti := Put(l, atti, EGL_HEIGHT);
    atti := Put(l, atti, a.height);
    atti := Put(l, atti, EGL_LINUX_DRM_FOURCC_EXT);
    atti := Put(l, atti, ToI32(a.format));
  }

  /** The loop body of the import for plane `i`. */
  method PutPlane(l: array<int>, atti: nat, a: DmabufAttributes, i: nat, hasModifier: bool) returns (next: nat)
    requires HasPlaneSlots(a) && i < MAX_PLANES && atti + PlaneWidth(hasModifier) <= l.Length
    modifies l
    ensures next == atti + PlaneWidth(hasModifier)
    ensures l[..next] == old(l[..atti]) + PlaneEntries(a, i, hasModifier)
  {
    next := PutLayout(l, atti, a, i);
    if hasModifier {
      next := PutModifier(l, next, a, i);
    }
  }

  /** The fd, offset and pitch entries of plane `i`. */
  method PutLayout(l: array<int>, atti: nat, a: DmabufAttributes, i: nat) returns (next: nat)
    requires HasPlaneSlots(a) && i < MAX_PLANES && atti + 6 <= l.Length
    modifies l
    ensures next == atti + 6
    ensures l[..next] == old(l[..atti]) + LayoutEntries(a, i)
  {
    next := Put(l, atti, PLANE_FD[i]);
    next := Put(l, next, a.fd[i]);
    next := Put(l, next, PLANE_OFFSET[i]);
    next := Put(l, next, ToI32(a.offset[i]));
    next := Put(l, next, PLANE_PITCH[i]);
    next := Put(l, next, ToI32(a.stride[i]));
  }

  /** The modifier entries of plane `i`: low half, then high half. */
  method PutModifier(l: array<int>, atti: nat, a: DmabufAttributes, i: nat) returns (next: nat)
    requires i < MAX_PLANES && atti + 4 <= l.Length
    modifies l
    ensures next == atti + 4
    ensures l[..next] == old(l[..atti]) + ModifierEntries(a, i)
  {
    next := Put(l, atti, PLANE_MODIFIER_LO[i]);
    next := Put(l, next, ModifierLo(a.modifier));
    next := Put(l, next, PLANE_MODIFIER_HI[i]);
    next := Put(l, next, ModifierHi(a.modifier));
  }

  /**
   * wlr_egl_create_image_from_dmabuf, up to the eglCreateImageKHR call:
   * the attribute list it passes, or None where it returns NULL first
   * (no image or no dma-buf import extension, or an explicit modifier
   * without the modifiers extension). The list is filled into a 50-entry
   * array through a running index.
   */
  method CreateImageFromDmabuf(imageBaseKhr: bool, importExt: bool, modifiersExt: bool, a: DmabufAttributes)
    returns (attribs: Option<seq<int>>)
    requires HasPlaneSlots(a) && a.nPlanes <= MAX_PLANES
    ensures attribs.None? <==> !imageBaseKhr || !importExt || (UsesModifier(a.modifier) && !modifiersExt)
    ensures attribs.Some? ==> attribs.value == ImportAttribs(a, UsesModifier(a.modifier))
  {
    if !imageBaseKhr || !importExt {
      return None;
    }
    var hasModifier := false;
    if a.modifier != DRM_FORMAT_MOD_INVALID && a.modifier != DRM_FORMAT_MOD_LINEAR {
      if !modifiersExt {
        return None;
      }
      hasModifier := true;
    }
    var l := BuildImportAttribs(a, hasModifier);
    attribs := Some(l);
  }

  /** Fills the fixed-size attribute array: header, one group per plane, terminator. */
  method BuildImportAttribs(a: DmabufAttributes, hasModifier: bool) returns (attribs: seq<int>)
    requires HasPlaneSlots(a) && a.nPlanes <= MAX_PLANES
    ensures attribs == ImportAttribs(a, hasModifier)
  {
    var l := new int[ATTRIBS_CAPACITY];
    var atti := PutHeader(l, a);
    for i := 0 to Planes(a)
      invariant atti == 6 + Span(hasModifier, i) <= 6 + Span(hasModifier, MAX_PLANES)
      invariant l[..atti] == Header(a) + PlanesEntries(a, i, hasModifier)
    {
      atti := PutPlane(l, atti, a, i, hasModifier);
    }
    atti := Put(l, atti, Egl.EGL_NONE);
    attribs := l[..atti];
  }

  /**
   * Reading the import list back with EGL's pair-by-pair lookup finds
   * the width, the height and the format's bit pattern, which gives the
   * format again.
   */
  lemma ImportHeaderReadBack(a: DmabufAttributes, hasModifier: bool)
    requires HasPlaneSlots(a) && a.nPlanes <= MAX_PLANES
    ensures var l := ImportAttribs(a, hasModifier);
      Egl.Lookup(l, EGL_WIDTH) == Some(a.width as int) &&
      Egl.Lookup(l, EGL_HEIGHT) == Some(a.height as int) &&
      Egl.Lookup(l, EGL_LINUX_DRM_FOURCC_EXT) == Some(ToI32(a.format)) &&
      FromI32(ToI32(a.format)) == a.format
  {
    var l := ImportAttribs(a, hasModifier);
    assert l[..6] == Header(a);
    var r := l[2..];
    assert r[0] == EGL_HEIGHT && r[1] == a.height as int;
    assert Egl.Lookup(l, EGL_LINUX_DRM_FOURCC_EXT) == Egl.Lookup(r, EGL_LINUX_DRM_FOURCC_EXT);
    var r2 := r[2..];
    assert |r2| >= 2 && r2[0] == EGL_LINUX_DRM_FOURCC_EXT && r2[1] == ToI32(a.format);
    assert Egl.Lookup(r, EGL_LINUX_DRM_FOURCC_EXT) == Egl.Lookup(r2, EGL_LINUX_DRM_FOURCC_EXT);
    FromToI32(a.format);
  }

  /** Plane `i`'s group sits in the import list right after the groups before it. */
  lemma ImportGroupAt(a: DmabufAttributes, i: nat, hasModifier: bool)
    requires HasPlaneSlots(a) && a.nPlanes <= MAX_PLANES && i < Planes(a)
    ensures var l := ImportAttribs(a, hasModifier); var k := 6 + Span(hasModifier, i);
      k + PlaneWidth(hasModifier) < |l| && l[k .. k + PlaneWidth(hasModifier)] == PlaneEntries(a, i, hasModifier)
  {
    var ps := PlanesEntries(a, Planes(a), hasModifier);
    var k := Span(hasModifier, i);
    var w := PlaneWidth(hasModifier);
    PlaneAt(a, Planes(a), i, hasModifier);
    SliceOfConcat(ps, [Egl.EGL_NONE], k, k + w);
    SliceAfter(Header(a), ps + [Egl.EGL_NONE], 6 + k, 6 + k + w);
    assert ImportAttribs(a, hasModifier) == Header(a) + (ps + [Egl.EGL_NONE]);
  }

  /**
   * With a modifier in use, the group of every plane carries its key, its
   * fd, offset and pitch, and the modifier's two halves, which together
   * give back the 64-bit modifier.
   */
  lemma ImportPlaneReadBack(a: DmabufAttributes, i: nat)
    requires HasPlaneSlots(a) && a.nPlanes <= MAX_PLANES && i < Planes(a)
    ensures var l := ImportAttribs(a, true); var k := 6 + 10 * i;
      k + 9 < |l| && IsI32(l[k + 3]) && IsI32(l[k + 5]) &&
      l[k] == PLANE_FD[i] && l[k + 1] == a.fd[i] as int &&
      FromI32(l[k + 3]) == a.offset[i] && FromI32(l[k + 5]) == a.stride[i] &&
      l[k + 6] == PLANE_MODIFIER_LO[i] && l[k + 8] == PLANE_MODIFIER_HI[i] &&
      IsI32(l[k + 7]) && IsI32(l[k + 9]) &&
      FromI32(l[k + 9]) * TWO_32 + FromI32(l[k + 7]) == a.modifier
  {
    var l := ImportAttribs(a, true);
    var k := 6 + Span(true, i);
    ImportGroupAt(a, i, true);
    var g := l[k .. k + 10];
    PlaneFields(a, i, g);
    assert l[k] == g[0] && l[k + 1] == g[1] && l[k + 3] == g[3] && l[k + 5] == g[5];
    assert l[k + 6] == g[6] && l[k + 7] == g[7] && l[k + 8] == g[8] && l[k + 9] == g[9];
  }

  /** The fields of a plane's group with a modifier, read back. */
  lemma PlaneFields(a: DmabufAttributes, i: nat, g: seq<int>)
    requires HasPlaneSlots(a) && i < MAX_PLANES && g == PlaneEntries(a, i, true)
    ensures |g| == 10 && IsI32(g[3]) && IsI32(g[5]) && IsI32(g[7]) && IsI32(g[9])
    ensures g[0] == PLANE_FD[i] && g[1] == a.fd[i] as int
    ensures FromI32(g[3]) == a.offset[i] && FromI32(g[5]) == a.stride[i]
    ensures g[6] == PLANE_MODIFIER_LO[i] && g[8] == PLANE_MODIFIER_HI[i]
    ensures FromI32(g[9]) * TWO_32 + FromI32(g[7]) == a.modifier
  {
    assert g[..6] == LayoutEntries(a, i) && g[6..] == ModifierEntries(a, i);
    FromToI32(a.offset[i]);
    FromToI32(a.stride[i]);
    ModifierHalves(a.modifier);
  }

  /** Without the modifiers extension these two formats are assumed importable. */
  const FALLBACK_FORMATS: seq<int> := [DRM_FORMAT_ARGB8888 as int, DRM_FORMAT_XRGB8888 as int]

  /**
   * The answers of a two-call EGL query: whether the count query
   * succeeded, whether the buffer for the answers was allocated, and what
   * the second call filled in (None when it failed).
   */
  datatype Query<T> = Query(countOk: bool, allocOk: bool, filled: Option<seq<T>>)

  /**
   * get_egl_dmabuf_formats: no list without the import extension; the
   * fallback list without the modifiers extension (if its copy can be
   * allocated); otherwise what the two queries give, None when any step
   * fails.
   */
  function GetDmabufFormats(importExt: bool, modifiersExt: bool, fallbackAllocOk: bool, q: Query<int>)
    : (r: Option<seq<int>>)
    ensures !importExt ==> r.None?
    ensures importExt && !modifiersExt ==> r == (if fallbackAllocOk then Some(FALLBACK_FORMATS) else None)
    ensures importExt && modifiersExt ==>
      (r.Some? <==> q.countOk && q.allocOk && q.filled.Some?) &&
      (r.Some? ==> r.value == q.filled.value)
  {
    if !importExt then None
    else if !modifiersExt then
      if fallbackAllocOk then Some(FALLBACK_FORMATS) else None
    else if !q.countOk || !q.allocOk then None
    else q.filled
  }

  /**
   * get_egl_dmabuf_modifiers: none without the import extension, an
   * empty list without the modifiers extension, otherwise what the two
   * queries give.
   */
  function GetDmabufModifiers(importExt: bool, modifiersExt: bool, q: Query<u64>): (r: Option<seq<u64>>)
    ensures !importExt ==> r.None?
    ensures importExt && !modifiersExt ==> r == Some([])
    ensures importExt && modifiersExt ==>
      (r.Some? <==> q.countOk && q.allocOk && q.filled.Some?) &&
      (r.Some? ==> r.value == q.filled.value)
  {
    if !importExt then None
    else if !modifiersExt then Some([])
    else if !q.countOk || !q.allocOk then None
    else q.filled
  }

  /**
   * The (format, modifier) pairs recorded for one format: none when its
   * modifier query failed, the pair with DRM_FORMAT_MOD_INVALID when it
   * has no modifiers, otherwise one pair per modifier.
   */
  function Recorded(format: u32, modifiers: Option<seq<u64>>): set<(u32, u64)>
  {
    match modifiers
    case None => {}
    case Some(ms) =>
      if |ms| == 0 then {(format, DRM_FORMAT_MOD_INVALID)}
      else set m | m in ms :: (format, m)
  }

  /** The format set after recording every format of `formats` in turn. */
  function FormatSet(formats: seq<int>, modifiersOf: u32 -> Option<seq<u64>>): set<(u32, u64)>
  {
    if formats == [] then {}
    else
      var last := U32(formats[|formats| - 1]);
      FormatSet(formats[..|formats| - 1], modifiersOf) + Recorded(last, modifiersOf(last))
  }

  /**
   * init_dmabuf_formats: for each queried format (taken as uint32_t), add
   * its pairs to the set in the nested loop; nothing when the format query
   * failed.
   */
  method InitDmabufFormats(formats: Option<seq<int>>, modifiersOf: u32 -> Option<seq<u64>>)
    returns (s: set<(u32, u64)>)
    ensures formats.None? ==> s == {}
    ensures formats.Some? ==> s == FormatSet(formats.value, modifiersOf)
  {
    s := {};
    if formats.None? {
      return;
    }
    var fs := formats.value;
    for i := 0 to |fs|
      invariant s == FormatSet(fs[..i], modifiersOf)
    {
      assert fs[..i + 1][..i] == fs[..i];
      var fmt: u32 := U32(fs[i]);
      var mods := modifiersOf(fmt);
      if mods.None? {
        continue;
      }
      var ms := mods.value;
      ghost var base := s;
      if |ms| == 0 {
        s := s + {(fmt, DRM_FORMAT_MOD_INVALID)};
      }
      for j := 0 to |ms|
        invariant s == base + (if |ms| == 0 then {(fmt, DRM_FORMAT_MOD_INVALID)} else set m | m in ms[..j] :: (fmt, m))
      {
        assert ms[..j + 1] == ms[..j] + [ms[j]];
        s := s + {(fmt, ms[j])};
      }
      assert ms[..|ms|] == ms;
    }
    assert fs[..|fs|] == fs;
  }

  /**
   * Membership in the format set: a pair is there exactly when some
   * queried format (as uint32_t) recorded it.
   */
  lemma {:induction false} FormatSetMembers(formats: seq<int>, modifiersOf: u32 -> Option<seq<u64>>, p: (u32, u64))
    ensures p in FormatSet(formats, modifiersOf) <==>
      exists i :: 0 <= i < |formats| && p in Recorded(U32(formats[i]), modifiersOf(U32(formats[i])))
  {
    if formats != [] {
      var init := formats[..|formats| - 1];
      FormatSetMembers(init, modifiersOf, p);
      assert forall i :: 0 <= i < |init| ==> init[i] == formats[i];
    }
  }

  /**
   * Without the modifiers extension the format set is exactly the two
   * fallback formats, each with DRM_FORMAT_MOD_INVALID.
   */
  lemma FallbackFormatSet(modifiersQuery: Query<u64>, fallbackAllocOk: bool, q: Query<int>)
    requires fallbackAllocOk
    ensures var formats := GetDmabufFormats(true, false, fallbackAllocOk, q);
      var modifiersOf := (f: u32) => GetDmabufModifiers(true, false, modifiersQuery);
      formats.Some? &&
      FormatSet(formats.value, modifiersOf) ==
        {(DRM_FORMAT_ARGB8888, DRM_FORMAT_MOD_INVALID), (DRM_FORMAT_XRGB8888, DRM_FORMAT_MOD_INVALID)}
  {
    var modifiersOf := (f: u32) => GetDmabufModifiers(true, false, modifiersQuery);
    var argb := [DRM_FORMAT_ARGB8888 as int];
    assert FALLBACK_FORMATS[..1] == argb && argb[..0] == [];
    assert FormatSet(argb, modifiersOf) == Recorded(DRM_FORMAT_ARGB8888, Some([]));
  }

  /** What eglExportDMABUFImageQueryMESA reports: format, plane count and the one modifier for all planes. */
  datatype ExportQuery = ExportQuery(format: u32, nPlanes: int, modifier: u64)

  /** What eglExportDMABUFImageMESA fills in for the four plane slots. */
  datatype ExportPlanes = ExportPlanes(fd: seq<i32>, stride: seq<u32>, offset: seq<u32>)

  predicate PlaneSlots(p: ExportPlanes)
  {
    |p.fd| == MAX_PLANES && |p.stride| == MAX_PLANES && |p.offset| == MAX_PLANES
  }

  /**
   * wlr_egl_export_image_to_dmabuf: the attributes are zeroed first;
   * without the export extension nothing else happens. The query's
   * answers are stored even when the plane count then turns out to be
   * above WLR_DMABUF_MAX_PLANES, which fails the export; a failed export
   * call fails it too. On success the plane data, the size and the flags
   * are filled in.
   */
  function ExportImage(exportMesa: bool, query: Option<ExportQuery>, planes: Option<ExportPlanes>,
                       width: i32, height: i32, flags: u32): (r: (bool, DmabufAttributes))
    requires planes.Some? ==> PlaneSlots(planes.value)
    ensures HasPlaneSlots(r.1)
    ensures r.0 <==> exportMesa && query.Some? && query.value.nPlanes <= MAX_PLANES && planes.Some?
    ensures !exportMesa || query.None? ==> r.1 == ZeroAttributes()
    ensures exportMesa && query.Some? ==>
      r.1.format == query.value.format && r.1.nPlanes == query.value.nPlanes &&
      r.1.modifier == query.value.modifier
    ensures r.0 ==>
      r.1.nPlanes <= MAX_PLANES && r.1.width == width && r.1.height == height && r.1.flags == flags &&
      r.1.fd == planes.value.fd && r.1.stride == planes.value.stride && r.1.offset == planes.value.offset
  {
    var zero := ZeroAttributes();
    if !exportMesa then (false, zero)
    else match query
      case None => (false, zero)
      case Some(q) =>
        var queried := zero.(format := q.format, nPlanes := q.nPlanes, modifier := q.modifier);
        if q.nPlanes > MAX_PLANES then (false, queried)
        else match planes
          case None => (false, queried)
          case Some(p) =>
            (true, queried.(fd := p.fd, stride := p.stride, offset := p.offset,
                            width := width, height := height, flags := flags))
  }
}
