# fbdev backend of wlroots, modelled in Dafny

This project models the Linux framebuffer ("fbdev") backend of this wlroots
fork. It also models the parts of the generic backend code, the EGL layer
and the GLES2 renderer that the backend relies on.

An fbdev **backend** owns a list of **outputs**, a naming counter and a
`started` flag. Each output is one framebuffer device. Its width and height
come from a probe of the device. Its refresh rate is derived from the
device's timing fields. A frame timer paces it at `1000000 / refresh`.
The backend can:

- discover the first usable framebuffer through udev and add it as an output;
- start, which arms, enables and announces every output;
- be destroyed, which tears down every output before the renderer and EGL.

Around the backend sit smaller decision procedures, each modelled on its own:

- the extension-string scanner shared by EGL and GL;
- EGL config choice and the context attribute list;
- the damage array of a buffer swap;
- the dma-buf import attribute list, the format and modifier queries, the
  format set, and the export guard;
- the GLES2 renderer's creation, texture binding, preferred read format and
  pixel read-back geometry;
- `wlr_backend_autocreate`, with its output-count variables and per-name
  backend attempts.

Modules, one concern each:

| file | module | models |
|---|---|---|
| cint.dfy | CInt | `uint32_t`/`uint64_t` wrap-around and `int32_t` narrowing |
| text.dfy | Text | whole-word tokens, decimal text, and `strtol` in base 10 |
| extensions.dfy | Extensions | `check_egl_ext` / `check_gl_ext` |
| refresh.dfy | Refresh | `calculate_refresh_rate` and the timer delay |
| fbdev_output.dfy | FbdevOutput | the output class and its probe |
| fbdev_backend.dfy | FbdevBackend | the backend class: create, add, start, destroy |
| egl.dfy | Egl | config choice, log mapping, context attributes, extension detection |
| egl_damage.dfy | EglDamage | `wlr_egl_swap_buffers` and its damage array |
| egl_dmabuf.dfy | EglDmabuf | dma-buf import list, format queries and set, export |
| gles2.dfy | Gles2 | the GLES2 renderer |
| autocreate.dfy | Autocreate | backend/backend.c |
| wrappers.dfy, log.dfy | Wrappers, Log | `Option`, and wlroots' log importance levels |

Integers are unbounded in Dafny. The C widths are written out where the
code depends on them:

- the refresh denominator wraps at 2^32 and then at 2^64;
- `strtol` results are narrowed to `int`;
- dma-buf fields are reinterpreted as `EGLint`;
- read-back offsets wrap at 2^32.

GL, EGL, udev, the event loop and the other backends' constructors are not
modelled. Whether each call succeeds, and what it answers, is an input. A
signal or a timer update is a counter or a field of the object it concerns.

Where the code departs from its evident intent, the model follows the
code:

- A second discovery pass adds the same framebuffer again, under a new name;
  nothing is compared with the outputs already present
  (`FbdevBackend.AddOutputsTwice`).
- Discovery hands the framebuffer to the as-written add, so a failed probe
  or make-current reaches its faulty error label and the dropped output is
  handed back (`FbdevBackend.Backend.AddOutputs`, see Findings).
- A failed backend creation can leak: the allocation when udev fails, and
  the udev context when the renderer fails (`FbdevBackend.Backend.Create`).
- Output counts are narrowed to `int`, so `2^32 + k` asks for `k` outputs
  (`Autocreate.ParseOutputsNarrowed`).

## Model

| member | source | states |
|---|---|---|
| Refresh.Denominator | backend/fbdev/output.c:106-111 | the frame period is a `uint64_t`: each margin sum wraps at 2^32, each product at 2^64 |
| Refresh.CalculateRefreshRate | backend/fbdev/output.c:104-125 | the rate always lies in 1..200, and a zero period gives 60 |
| Refresh.RefreshRateMeaning | backend/fbdev/output.c:113-124 | a period over one second gives 60; otherwise the rate is min(10^12 / period, 200) |
| Refresh.ExactDenominator | backend/fbdev/output.c:109-111 | without overflow the period is exactly (upper+lower+yres)*(left+right+xres)*pixclock |
| Refresh.ZeroPixclockDefaults | backend/fbdev/output.c:111-124 | a zero pixel clock gives the 60 Hz default |
| Refresh.Examples | backend/fbdev/output.c:104-125 | CEA 1080p totals at 6734 ps give 60 Hz and at 5387 ps give 75 Hz; the 200 Hz cap and the over-a-second fallback |
| Refresh.FrameDelay | backend/fbdev/output.c:100 | the delay `1000000 / refresh` is defined for every derived rate and lies in 5000..1000000 |
| Refresh.FrameDelayMonotone | backend/fbdev/output.c:100 | a faster rate never gives a longer delay |
| FbdevOutput.DetermineFbInfo | backend/fbdev/output.c:127-156 | the probe succeeds iff open and ioctl both succeed, and then yields (xres, yres, derived rate); an opened descriptor is closed exactly once, as the last call, on both paths |
| FbdevOutput.Truncate | backend/fbdev/output.c:181-182 | snprintf keeps at most n-1 characters, and a prefix of the text |
| FbdevOutput.OutputName | backend/fbdev/output.c:181-182 | the name starts with `FBDEV-` and fits the 24-byte field |
| FbdevOutput.OutputNamesDistinct | backend/fbdev/output.c:181-182 | different counter values below 10^17 give different names |
| FbdevOutput.NewOutput | backend/fbdev/output.c:168-182 | a new output uses the fbdev table, re-reports its probed mode, has make and model `fbdev`, and is named from its counter value |
| FbdevOutput.Output.constructor | backend/fbdev/output.c:162-170 | the zeroed allocation holding the probed geometry, rate and counter value |
| FbdevOutput.Output.SetCustomMode | backend/fbdev/output.c:22-32 | whatever is requested, the stored mode is re-reported and the call returns true |
| FbdevOutput.Output.AttachRender | backend/fbdev/output.c:34-48 | the result is make-current's; on success the buffer age is egl_get_buffer_age's answer, on failure it is not written |
| FbdevOutput.Output.Commit | backend/fbdev/output.c:50-72 | a failed swap returns false with no present event; a successful one sends exactly one |
| FbdevOutput.Output.Announce | backend/fbdev/output.c:199-203 | the timer is armed at `1000000 / refresh`, the output enabled, and one new-output event sent |
| FbdevOutput.Output.SignalFrame | backend/fbdev/output.c:97-102 | one frame event, then the same timer re-armed at `1000000 / refresh`; the mode, make, model, enable state and the other counters stay as they were |
| FbdevBackend.TeardownAll | backend/fbdev/backend.c:43-46 | destroying n outputs performs two steps per output, in list order |
| FbdevBackend.ChosenFactory | backend/fbdev/backend.c:104-106 | a NULL renderer constructor means wlr_renderer_autocreate |
| FbdevBackend.ConfigRequest | backend/fbdev/backend.c:98-102 | the config list is terminated, asks for a 32-bit buffer and ES2 renderability, and nothing else |
| FbdevBackend.ExamineAsWritten | backend/fbdev/output.c:225-243 | the loop body as written: the device guard tests the path again, so its skip never happens |
| FbdevBackend.Examine | backend/fbdev/output.c:225-243 | the corrected body: skip without a path, without a device, or without a devnode; otherwise use the device |
| FbdevBackend.DeviceGuardAsWritten | backend/fbdev/output.c:232-242 | the misplaced guard never fires; a missing device is caught by the devnode guard, and the same entry is used either way |
| FbdevBackend.FirstUsable | backend/fbdev/output.c:225-251 | the index of the first usable entry, and no entry before it is usable; none when no entry is |
| FbdevBackend.Backend.Init | backend/fbdev/backend.c:81-96 | a created backend has no outputs, counter 0, is not started, and holds its listener, udev context, renderer and EGL |
| FbdevBackend.Backend.Create | backend/fbdev/backend.c:77-122 | NULL iff allocation, udev or renderer creation fails, with what each failure leaks; otherwise an empty backend holding its renderer and EGL display, with an empty teardown trace, with the fbdev table (backend.c:124-126) and the chosen constructor |
| FbdevBackend.Backend.Start | backend/fbdev/backend.c:17-32 | every output is armed, enabled and announced once more (exactly once after a first start), keeping its mode, make, model and other counters; the list and the backend's other state stay as they were; the result is true and `started` is set |
| FbdevBackend.Backend.AddOutput | backend/fbdev/output.c:158-208 | corrected error label: each failure is reported and leaves the list unchanged; the counter grows once the probe succeeds; a new output goes to the head, armed and announced iff started |
| FbdevBackend.Backend.AddOutputAsWritten | backend/fbdev/output.c:158-208 | as written: the error label is reached iff the allocation succeeded and the probe or make-current failed, and the output it hands to output_destroy carries the fbdev table but is not in the list and has no timer, so `Backend.DestroyOutput` (output.c:74-84), which needs its output in the list, cannot apply; otherwise the same outcomes as `AddOutput` |
| FbdevBackend.Backend.AddProbed | backend/fbdev/output.c:178-203 | after a probe: bump the counter, then either drop the output (make-current failed) or link it at the head in the started-dependent state |
| FbdevBackend.Backend.AddOutputs | backend/fbdev/output.c:210-256 | hands the first usable entry, and only it, to the as-written fbdev_add_output and returns its outcome in full: a failed probe or make-current hands back the dropped output, which is not in the list and has no timer; the counter grows exactly when the probe succeeded; nothing changes when no entry is usable |
| FbdevBackend.FindUsable | backend/fbdev/output.c:225-251 | the walk over the entries stops at the first usable one, the index `FirstUsable` names, or finds none |
| FbdevBackend.Backend.DestroyOutput | backend/fbdev/output.c:74-84 | the output is unlinked (the rest keep their order), its timer removed, and its teardown steps recorded |
| FbdevBackend.Backend.DestroyOutputs | backend/fbdev/backend.c:43-46 | the removal-safe walk empties the list, newest first, removing every timer |
| FbdevBackend.Backend.Destroy | backend/fbdev/backend.c:34-53 | listener removed; every output torn down; then the destroy signal, the renderer and, last, EGL |
| FbdevBackend.Backend.HandleDisplayDestroy | backend/fbdev/backend.c:68-75 | the udev context is released before the backend is destroyed |
| FbdevBackend.AddOutputsTwice | backend/fbdev/output.c:225-250 | two discovery passes over one framebuffer add it twice, with the same mode and different names |
| Extensions.CheckExt | render/egl.c:62-78 | the scan (the same in render/gles2/renderer.c:501-517) finds the name iff it is a whole space-separated word of the list |
| Extensions.WholeWordMatch | render/egl.c:62-78 | found iff the name occurs with a space or an end of the list on both sides; the empty name and names with a space are never found |
| Extensions.PrefixNotAdvertised | render/egl.c:62-78 | a proper prefix of the only advertised word is not found |
| Egl.GetConfig | render/egl.c:10-43 | none when a query fails or there are no configs; otherwise the first match whose visual id can be read and is acceptable, and none iff no match is |
| Egl.LogImportance | render/egl.c:45-53 | critical, error and warning map to error; everything else maps to info |
| Egl.ContextAttribs | render/egl.c:213-230 | at most 5 entries, terminated; client version 2; the high-priority pair iff the extension is present on GBM |
| Egl.BufferAge | render/egl.c:339-353 | -1 without the extension or when the query fails, otherwise the reported age |
| Egl.DetectExtensions | render/egl.c:180-211 | each flag is set iff its name is advertised and all its entry points were loaded |
| Egl.ModifiersAloneIsNotImport | render/egl.c:193-197 | the modifiers extension alone does not make plain dma-buf import advertised |
| Egl.DestroyImage | render/egl.c:318-326 | false without the image extension, true for a null image, otherwise eglDestroyImageKHR's answer |
| Egl.DestroySurface | render/egl.c:668-673 | true for a null surface, otherwise eglDestroySurface's answer |
| EglDamage.SwapPath | render/egl.c:384-425 | a damage swap iff a region is given and a damage extension exists, EXT preferred |
| EglDamage.DamageArrayAsWritten | render/egl.c:398-414 | as written: each rectangle reads back as (x1, y1, x2-x1, y2-y1), but an empty region leaves one entry for a one-rectangle count |
| EglDamage.DamageArray | render/egl.c:398-414 | corrected: every rectangle reads back, the count's four entries per rectangle fit, and an empty region is one zero rectangle |
| EglDamage.SwapBuffers | render/egl.c:376-432 | the swap interval is zeroed iff on Wayland; the entry point is SwapPath's; damage is converted, as written, only for a damage swap: every rectangle reads back, and an empty region gives a count of 1 over a one-entry array; the result is the swap's |
| EglDmabuf.ZeroAttributes | render/egl.c:640 | the zeroed attributes have four plane slots, no planes and modifier 0 |
| EglDmabuf.ModifierHalves | render/egl.c:538-540 | the low and high 32-bit halves, read back as unsigned, give the 64-bit modifier |
| EglDmabuf.ImportAttribsFit | render/egl.c:486-544 | the list has 6 + 6 or 10 per plane + 1 entries, fewer than 50, and is terminated |
| EglDmabuf.PlaneAt | render/egl.c:529-542 | plane i's group sits right after the groups of planes 0..i-1 |
| EglDmabuf.PutHeader | render/egl.c:486-493 | the first six entries are width, height and format with their keys |
| EglDmabuf.PutPlane | render/egl.c:530-541 | one plane's group is appended: fd, offset, pitch and, with a modifier, its halves |
| EglDmabuf.PutLayout | render/egl.c:530-535 | the fd, offset and pitch entries are appended |
| EglDmabuf.PutModifier | render/egl.c:536-541 | the modifier's low and high entries are appended |
| EglDmabuf.BuildImportAttribs | render/egl.c:486-544 | the filled prefix of the 50-entry array is the import list |
| EglDmabuf.CreateImageFromDmabuf | render/egl.c:464-548 | no image iff an extension is missing or a real modifier lacks the modifiers extension; otherwise the import list, with a modifier iff it is neither INVALID nor LINEAR |
| EglDmabuf.ImportHeaderReadBack | render/egl.c:488-493 | EGL's lookup finds the width, the height and the format's bit pattern, which gives the format back |
| EglDmabuf.ImportGroupAt | render/egl.c:529-542 | each plane's group sits at 6 plus the widths of the groups before it |
| EglDmabuf.ImportPlaneReadBack | render/egl.c:529-542 | with a modifier, plane i's keys, fd, offset and stride read back, and its halves give the modifier |
| EglDmabuf.GetDmabufFormats | render/egl.c:550-597 | none without import; [ARGB8888, XRGB8888] without modifiers (if allocated); otherwise the query's answer, none if any step fails |
| EglDmabuf.GetDmabufModifiers | render/egl.c:599-631 | none without import; an empty list without modifiers; otherwise the query's answer |
| EglDmabuf.InitDmabufFormats | render/egl.c:84-109 | the set is empty when the format query fails, otherwise the pairs recorded for each format in turn |
| EglDmabuf.FormatSetMembers | render/egl.c:91-106 | a pair is in the set iff some format recorded it: INVALID for no modifiers, else one pair per modifier |
| EglDmabuf.FallbackFormatSet | render/egl.c:561-577 | without the modifiers extension the set is exactly {(ARGB8888, INVALID), (XRGB8888, INVALID)} |
| EglDmabuf.ExportImage | render/egl.c:637-666 | success iff the extension exists, both calls succeed and there are at most 4 planes; zeroed before; query values kept even on a plane-count failure |
| Gles2.LogImportance | render/gles2/renderer.c:424-437 | GL errors and undefined behaviour map to error; every other type maps to debug |
| Gles2.RowsMirrorSingleCall | render/gles2/renderer.c:309-323 | without wrap-around, row i reads GL row y0 + height-1-i into offset + i*stride: the single call's rows bottom-up, which Y_INVERT reports |
| Gles2.RowOffsetPlain | render/gles2/renderer.c:309-322 | without 32-bit overflow a row's offset is dst_y*stride + i*stride + dst_x*bpp/8 |
| Gles2.Renderer.constructor | render/gles2/renderer.c:532-566 | the renderer holds the detected extensions and linked shaders, with a zero viewport |
| Gles2.Renderer.Begin | render/gles2/renderer.c:32-51 | the viewport size is recorded |
| Gles2.Renderer.TextureBinding | render/gles2/renderer.c:124-155 | GL textures use rgba/rgbx (by alpha) on TEXTURE_2D; image textures use tex_ext on EXTERNAL_OES and fail without it; only GLTEX binds gl_tex |
| Gles2.Renderer.DrawUsesLinkedProgram | render/gles2/renderer.c:124-162 | on a created renderer, a successful binding always names a linked program |
| Gles2.Renderer.PreferredReadFormat | render/gles2/renderer.c:256-281 | the matched format's wl_format; otherwise XRGB8888 iff BGRA can be read, XBGR8888 iff not |
| Gles2.Renderer.ReadPixels | render/gles2/renderer.c:283-332 | fails for an unknown format or BGRA without the extension; one inverted call iff the single path applies, else one call per row and flags 0 |
| Gles2.LinkProgram | render/gles2/renderer.c:462-499 | the program iff both compiles and the link succeed, 0 otherwise; every created shader is deleted; a failed link deletes the program |
| Gles2.FirstFailure | render/gles2/renderer.c:582-629 | where linking stops: every needed program before it linked, the one there did not; 5 iff all needed ones linked |
| Gles2.CreateRenderer | render/gles2/renderer.c:527-651 | creation fails without GL API, memory, a current context on a platform, BGRA8888, or a needed program; on a link failure every program field is deleted; otherwise the extensions are recorded |
| Gles2.RendererExts | render/gles2/renderer.c:559-566 | each optional flag is its name's advertisement, with its entry points where it has any |
| Gles2.ErrorPathDeletesLinkedPrograms | render/gles2/renderer.c:635-640 | the error path deletes every program linked before the failure and only zeros after it |
| Autocreate.Start | backend/backend.c:38-43 | the start hook's answer, true without one |
| Autocreate.Destroy | backend/backend.c:45-55 | nothing for NULL, the destroy hook when there is one, otherwise a plain free |
| Autocreate.Get | backend/backend.c:57-69 | the hook's answer, NULL without a hook |
| Autocreate.PresentationClock | backend/backend.c:71-76 | the hook's clock, CLOCK_MONOTONIC without one |
| Autocreate.ParseOutputsEnv | backend/backend.c:78-92 | 1 when unset, with trailing text or negative; otherwise strtol's value narrowed to int |
| Autocreate.ParseOutputsRoundTrip | backend/backend.c:84-91 | a decimal count below 2^31 is read back as itself |
| Autocreate.ParseOutputsTrailing | backend/backend.c:84-89 | a count followed by a non-digit gives 1 |
| Autocreate.ParseOutputsNarrowed | backend/backend.c:85 | the int cast keeps the low 32 bits: 2^32 + k gives k |
| Autocreate.RdpPortAsWritten | backend/backend.c:157-168 | as written: the port is narrowed to int before the range check |
| Autocreate.RdpPortAsWrittenWraps | backend/backend.c:160-161 | "4294967297" passes the check as port 1 |
| Autocreate.RdpPort | backend/backend.c:159-167 | corrected: accepted only when the whole text is a number in 1..1023, and it is that number |
| Autocreate.RdpPortDecimal | backend/backend.c:159-167 | a decimal port is accepted iff it lies in 1..1023 |
| Autocreate.Recognise | backend/backend.c:228-262 | a name selects exactly the built backend of that name, and none when no built backend has it |
| Autocreate.Primary | backend/backend.c:204-217 | no primary DRM backend iff no GPU opened |
| Autocreate.DrmParents | backend/backend.c:207-217 | the DRM backends opened are all DRM backends; the primary is the first opened and has no parent; every later one has it as parent; none opened iff no primary |
| Autocreate.CreateOutputs | backend/backend.c:101-104 | exactly ParseOutputsEnv outputs are created |
| Autocreate.AttemptWithOutputs | backend/backend.c:94-107 | Wayland, X11, headless and noop: none iff the constructor fails, otherwise the variable's count of outputs |
| Autocreate.AttemptRdp | backend/backend.c:141-171 | as written: none without both TLS paths or when the unchecked constructor fails; with both and a constructor, none iff a given port fails the narrowed check, otherwise the RDP backend on that port (none given: the default) |
| Autocreate.RdpPortAgrees | backend/backend.c:159-161 | the narrowed and the intended port checks agree on every decimal below 2^31 |
| Autocreate.AttemptRdpWraps | backend/backend.c:157-168 | with both TLS paths and a constructor, WLR_RDP_PORT="4294967297" starts RDP on port 1 |
| Autocreate.Multi.constructor | backend/backend.c:267 | a new multi-backend has no sub-backends and no session |
| Autocreate.Multi.Add | backend/backend.c:296-302 | a sub-backend is appended iff the add succeeds |
| Autocreate.Multi.TearDown | backend/backend.c:290-291 | the session is destroyed, then the multi-backend |
| Autocreate.Multi.TryGpu | backend/backend.c:208-219 | a GPU whose backend opens becomes the primary when there is none yet, and its backend is added iff the multi-backend accepts it; a GPU that fails changes nothing |
| Autocreate.Multi.AttemptDrm | backend/backend.c:199-223 | every opened DRM backend is added in order and failures are skipped; the result is the first success |
| Autocreate.Multi.EnsureSession | backend/backend.c:246-252 | a session is created only when none exists |
| Autocreate.Multi.AttemptByName | backend/backend.c:225-263 | unknown names give none; each known name gives its attempt; DRM and libinput first make sure of a session, and DRM adds every backend it opens; the returned backend and new state are `ByName`'s |
| Autocreate.ByNamesUnknownFails | backend/backend.c:284-292 | a name that selects no built backend makes the whole WLR_BACKENDS list fail, wherever it stands |
| Autocreate.ByNamesGrows | backend/backend.c:284-305 | a successful list keeps the earlier sub-backends and adds at least one per name |
| Autocreate.KeptAppend | backend/backend.c:349-352 | the accepted adds of two runs of `wlr_multi_backend_add` are those of each run, in order |
| Autocreate.AllKnownEvery | backend/backend.c:284-305 | the recursive every-name-known predicate is the statement about every name |
| Autocreate.AddByName | backend/backend.c:286-302 | one name: success iff the attempt returns a backend and the multi-backend accepts it, which is then appended after whatever the attempt added; either failure destroys the session and the multi-backend |
| Autocreate.AutocreateByNames | backend/backend.c:274-309 | success iff every name's attempt and add succeed, in order (`ByNames`), and then the multi-backend holds exactly what they added, DRM's own adds included; success needs every name known; a session exists, opened once, iff some name needs it; a failure tears everything down |
| Autocreate.AutocreateFallback | backend/backend.c:311-361 | Wayland first, then X11, then a session with libinput and at least one DRM backend; success iff `Fallback` succeeds, with exactly its sub-backends added: on the session path libinput and then every DRM backend opened, each iff accepted; a failure on the last path tears down |
| Autocreate.Autocreate | backend/backend.c:265-362 | none when the multi-backend cannot be allocated; with WLR_BACKENDS, success iff the copy and every name succeed, holding what `ByNames` gives; without it, success iff `Fallback` succeeds, holding its sub-backends; a failure leaves the multi-backend destroyed |

## Left out

- GL, EGL, udev, libc and Wayland calls are inputs: success flags and answers. No GL state, no surfaces, no buffers are modelled.
- Logging, the GLES2 debug markers, and the format-name dump in init_dmabuf_formats.
- Floating point: clear colours, quad and ellipse drawing, matrix transposition, scissor, and the uniform setup in the texture draw.
- wlr_region_transform and the damage region's flip: the flipped rectangles are the input of `EglDamage.SwapBuffers`.
- wlr_egl_init outside the extension detection, config choice and context attributes: display creation, eglInitialize, context and surface creation, and make-current are external calls whose order is not modelled. The same goes for wlr_egl_finish, wlr_egl_bind_display, wlr_egl_make_current and wlr_egl_create_image_from_wl_drm.
- The context-priority query after context creation only logs, so it is not modelled.
- The pixel format table (render/gles2/pixel_format.c) and `struct wlr_dmabuf_attributes` (include/wlr/render/dmabuf.h) are not part of this model. A format lookup is an input; the struct's field widths are taken as documented in egl_dmabuf.dfy, and so is its fixed array of four plane slots: the requires `HasPlaneSlots(a) && a.nPlanes <= MAX_PLANES` on the dmabuf operations is that struct's invariant, not a demand on callers.
- The drm format set is a Dafny `set` of (format, modifier) pairs. An allocation failure inside wlr_drm_format_set_add is not modelled.
- FbdevOutput.OutputName: the counter `last_output_num` is a `size_t` printed with `%zd` (backend/fbdev/output.c:181-182); the model takes it as an unbounded `nat`, because the wrap at 2^64 and the negative print of values from 2^63 are out of reach of any real run.
- The getter `backend_get_renderer` (backend/fbdev/backend.c:55-60) only returns a field, so it is not modelled.
- `wlr_output_is_fbdev` and `wlr_backend_is_fbdev` are the predicates `IsFbdevOutput` and `IsFbdevBackend`. They appear in the contracts of `NewOutput` and `Backend.Create`.
- Autocreate.AttemptRdp: WLR_RDP_ADDRESS is not modelled. When the RDP constructor fails, backend/backend.c:151-167 still calls wlr_rdp_backend_set_address and wlr_rdp_backend_set_port on the NULL backend; the model does not represent those calls and only returns the failure.
- Autocreate.AttemptWithOutputs: the headless outputs' fixed 1280x720 size is not recorded, only their number.
- Autocreate.AutocreateFallback: when no DRM device opens, the libinput backend is destroyed before the session. The model records only the teardown of the session and the multi-backend.
- Autocreate.Multi.Add: wlr_multi_backend_add's own checks (backend/multi/backend.c) are not part of this model. Whether it accepts a sub-backend is an input, and `added` records every accepted call: for a "drm" name the primary DRM backend is handed to it twice, once inside attempt_drm_backend and once by the loop, and appears twice when both calls are accepted.
- The EGL surface argument: backend/fbdev/output.c:39-40, 64-65 and 82 pass the address of the backend's EGL surface where the surface itself is expected, as output.c:184 passes it. Make-current, swap and surface destruction are inputs here, so the model does not distinguish the two.
- Gles2.CreateRenderer: the debug callback that the error path disables again is not modelled, and neither are the uniform locations.
- The sub-backends are identified by what distinguishes them (`Autocreate.Sub`); their internals are not modelled.
- The `WAYLAND_DISPLAY`, `_WAYLAND_DISPLAY` and `WAYLAND_SOCKET` variables are one flag, because only whether any is set matters.
- Concurrency does not arise: every operation runs on one event loop. Re-entrant destruction from a timer callback is not modelled.

## Findings

The model of each operation follows the code, so `FbdevBackend.Backend.AddOutputs` calls the as-written add, `EglDamage.SwapBuffers` builds the as-written damage array and `Autocreate.AttemptRdp` uses the as-written port check. Each corrected half stands beside its as-written half with the intended property proved; `Autocreate.RdpPortAgrees` states where the two port checks agree.

| source | as written | input that shows it | evidently intended | confidence | as-written member | corrected member |
|---|---|---|---|---|---|---|
| backend/fbdev/output.c:207 | a failed probe or make-current jumps to `wlr_output_destroy`, whose `output_destroy` unlinks the output and removes its timer (output.c:78-80), but the output was never linked (output.c:197) and has no timer (output.c:195) | a framebuffer whose `open` fails | drop the half-built output without unlinking or removing a timer | not executed | FbdevBackend.Backend.AddOutputAsWritten | FbdevBackend.Backend.AddOutput |
| backend/fbdev/output.c:233 | the guard after `udev_device_new_from_syspath` tests `path` again, not `device` | an entry with a path whose device cannot be made | skip the entry when the device is NULL | not executed | FbdevBackend.DeviceGuardAsWritten | FbdevBackend.Examine |
| render/egl.c:398-414 | for an empty region the array is declared with `4 * 0 + 1` entries, then the count is raised to 1, so the swap reads 4 entries from a 1-entry array | an empty damage region with a damage extension present | room for one zero rectangle | not executed | EglDamage.DamageArrayAsWritten | EglDamage.DamageArray |
| backend/backend.c:159-167 | strtol's value is narrowed to `int` before the 1..1023 check | WLR_RDP_PORT="4294967297" is accepted as port 1 | accept only a whole number in 1..1023 | not executed | Autocreate.RdpPortAsWrittenWraps | Autocreate.RdpPort |
