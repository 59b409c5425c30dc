/**
 * backend/backend.c: the generic backend entry points with their
 * defaults, the output-count variables, the per-name backend attempts and
 * wlr_backend_autocreate, which either walks the comma-separated names of
 * WLR_BACKENDS or falls back to Wayland, X11 and finally a session with
 * libinput and DRM.
 *
 * The environment is an input record; the other backends' constructors
 * are opaque and their success is an input (`Platform`). A backend
 * created here is represented by what identifies it (`Sub`), and the
 * multi-backend by the sub-backends added to it and its session.
 */
module Autocreate {
  import opened CInt
  import opened Wrappers
  import opened Text

  /** CLOCK_MONOTONIC on Linux. */
  const CLOCK_MONOTONIC: int := 1

  /** wlr_backend_start: the start hook's answer, and true when there is none. */
  function Start(startHook: Option<bool>): (ok: bool)
    ensures startHook.None? ==> ok
    ensures startHook.Some? ==> ok == startHook.value
  {
    match startHook
    case None => true
    case Some(answer) => answer
  }

  /** What wlr_backend_destroy does. */
  datatype DestroyAction = Nothing | CallDestroyHook | FreeOnly

  /**
   * wlr_backend_destroy: nothing for NULL, the destroy hook when the
   * implementation has one, otherwise a plain free.
   */
  function Destroy(isNull: bool, hasImpl: bool, hasDestroyHook: bool): (a: DestroyAction)
    ensures a == Nothing <==> isNull
    ensures a == CallDestroyHook <==> !isNull && hasImpl && hasDestroyHook
    ensures a == FreeOnly <==> !isNull && !(hasImpl && hasDestroyHook)
  {
    if isNull then Nothing
    else if hasImpl && hasDestroyHook then CallDestroyHook
    else FreeOnly
  }

  /**
   * wlr_backend_get_renderer and wlr_backend_get_session: the hook's
   * answer (which may itself be NULL, None), or NULL without a hook.
   */
  function Get<T>(hook: Option<Option<T>>): (r: Option<T>)
    ensures hook.None? ==> r.None?
    ensures hook.Some? ==> r == hook.value
  {
    match hook
    case None => None
    case Some(answer) => answer
  }

  /** wlr_backend_get_presentation_clock: the hook's clock, CLOCK_MONOTONIC without one. */
  function PresentationClock(hook: Option<int>): (clock: int)
    ensures hook.None? ==> clock == CLOCK_MONOTONIC
    ensures hook.Some? ==> clock == hook.value
  {
    match hook
    case None => CLOCK_MONOTONIC
    case Some(c) => c
  }

  /**
   * parse_outputs_env: 1 when the variable is unset; otherwise strtol's
   * value narrowed to `int`, unless the text does not end where the number
   * does or the narrowed value is negative, which give 1 again.
   */
  function ParseOutputsEnv(value: Option<string>): (n: nat)
    ensures n < TWO_31
    ensures value.None? ==> n == 1
    ensures value.Some? ==>
      var c := Strtol(value.value);
      (c.end < |value.value| || ToI32(c.value) < 0 ==> n == 1) &&
      (c.end == |value.value| && ToI32(c.value) >= 0 ==> n == ToI32(c.value))
  {
    match value
    case None => 1
    case Some(text) =>
      var c := Strtol(text);
      var outputs := ToI32(c.value);
      if c.end < |text| || outputs < 0 then 1 else outputs
  }

  /** A count written in decimal is read back as itself. */
  lemma ParseOutputsRoundTrip(k: nat)
    requires k < TWO_31
    ensures ParseOutputsEnv(Some(Decimal(k))) == k
  {
    StrtolOfDecimal(k);
  }

  /** A count followed by anything that is not a digit is refused: one output. */
  lemma ParseOutputsTrailing(k: nat, rest: string)
    requires |rest| > 0 && !IsDigit(rest[0])
    ensures ParseOutputsEnv(Some(Decimal(k) + rest)) == 1
  {
    var d := Decimal(k);
    var s := d + rest;
    assert s[0] == d[0] && IsDigit(s[0]);
    assert SkipSpaces(s, 0) == 0;
    DigitRunStops(d, rest, 0);
    assert Strtol(s).end == |d| < |s|;
  }

  /**
   * The `int` cast keeps the low 32 bits: a count of 2^32 + k (k below
   * 2^31) gives k outputs.
   */
  lemma ParseOutputsNarrowed(k: nat)
    requires k < TWO_31
    ensures ParseOutputsEnv(Some(Decimal(TWO_32 + k))) == k
  {
    StrtolOfDecimal(TWO_32 + k);
    assert TWO_32 + k <= LONG_MAX;
    NarrowOnce(k);
  }

  /** One wrap of 2^32 is lost in the cast. */
  lemma NarrowOnce(k: nat)
    requires k < TWO_31
    ensures ToI32(TWO_32 + k) == k
  {
    assert (TWO_32 + k) % TWO_32 == k;
  }

  lemma {:induction false} DigitRunStops(d: string, rest: string, i: nat)
    requires i <= |d| && AllDigits(d) && |rest| > 0 && !IsDigit(rest[0])
    ensures DigitRunEnd(d + rest, i) == |d|
    decreases |d| - i
  {
    var s := d + rest;
    if i < |d| {
      assert IsDigit(s[i]);
      DigitRunStops(d, rest, i + 1);
    } else {
      assert s[i] == rest[0];
    }
  }

  /**
   * attempt_rdp_backend's port check as written: strtol's value is
   * narrowed to `int` before the range check, so text naming a number far
   * outside 1..1023 can still pass.
   */
  function RdpPortAsWritten(text: string): (port: Option<int>)
    ensures port.Some? ==> 1 <= port.value <= 1023 && Strtol(text).end == |text|
  {
    var c := Strtol(text);
    var port := ToI32(c.value);
    if c.end < |text| || port <= 0 || port >= 1024 then None else Some(port)
  }

  /** "4294967297" is accepted as port 1. */
  lemma RdpPortAsWrittenWraps()
    ensures Strtol(Decimal(TWO_32 + 1)).value == TWO_32 + 1
    ensures RdpPortAsWritten(Decimal(TWO_32 + 1)) == Some(1)
  {
    StrtolOfDecimal(TWO_32 + 1);
  }

  /**
   * The port check with the range test on strtol's own value: a port is
   * accepted exactly when the whole text is a number in 1..1023, and it
   * is that number.
   */
  function RdpPort(text: string): (port: Option<int>)
    ensures port.Some? ==> 1 <= port.value <= 1023 && Strtol(text).end == |text| && Strtol(text).value == port.value
  {
    var c := Strtol(text);
    if c.end < |text| || c.value <= 0 || c.value >= 1024 then None else Some(c.value)
  }

  /** A decimal port is accepted exactly when it lies in 1..1023. */
  lemma RdpPortDecimal(n: nat)
    ensures RdpPort(Decimal(n)) == (if 1 <= n <= 1023 then Some(n) else None)
  {
    StrtolOfDecimal(n);
  }

  /** The backends a name can select. */
  datatype Known = Wayland | X11 | Headless | Rdp | Noop | Fbdev | Drm | Libinput

  function Name(k: Known): string
  {
    match k
    case Wayland => "wayland"
    case X11 => "x11"
    case Headless => "headless"
    case Rdp => "rdp"
    case Noop => "noop"
    case Fbdev => "fbdev"
    case Drm => "drm"
    case Libinput => "libinput"
  }

  /** Whether the build includes a backend: X11 and RDP are optional. */
  predicate Built(k: Known, hasX11: bool, hasRdp: bool)
  {
    (k == X11 ==> hasX11) && (k == Rdp ==> hasRdp)
  }

  /** The name comparisons of attempt_backend_by_name. */
  function Recognise(name: string, hasX11: bool, hasRdp: bool): (k: Option<Known>)
    ensures k.Some? ==> Name(k.value) == name && Built(k.value, hasX11, hasRdp)
    ensures k.None? ==> forall b: Known :: Built(b, hasX11, hasRdp) ==> Name(b) != name
  {
    if name == "wayland" then Some(Wayland)
    else if hasX11 && name == "x11" then Some(X11)
    else if name == "headless" then Some(Headless)
    else if hasRdp && name == "rdp" then Some(Rdp)
    else if name == "noop" then Some(Noop)
    else if name == "fbdev" then Some(Fbdev)
    else if name == "drm" || name == "libinput" then (if name == "drm" then Some(Drm) else Some(Libinput))
    else None
  }

  /** DRM and libinput need a session. */
  predicate NeedsSession(k: Known)
  {
    k == Drm || k == Libinput
  }

  /** The backends with an output-count variable. */
  predicate HasOutputCount(k: Known)
  {
    k == Wayland || k == X11 || k == Headless || k == Noop
  }

  /** What the process environment holds: a string per variable that is set. */
  datatype Env = Env(
    backends: Option<string>,
    wlOutputs: Option<string>, x11Outputs: Option<string>,
    headlessOutputs: Option<string>, noopOutputs: Option<string>,
    rdpCertPath: bool, rdpKeyPath: bool, rdpPort: Option<string>,
    waylandDisplay: bool, x11Display: bool)

  /** WLR_WL_OUTPUTS, WLR_X11_OUTPUTS, WLR_HEADLESS_OUTPUTS, WLR_NOOP_OUTPUTS. */
  function OutputsVariable(k: Known, env: Env): Option<string>
    requires HasOutputCount(k)
  {
    match k
    case Wayland => env.wlOutputs
    case X11 => env.x11Outputs
    case Headless => env.headlessOutputs
    case Noop => env.noopOutputs
  }

  /**
   * The outside world: which optional backends were built, whether each
   * opaque constructor succeeds, whether a session can be opened, the GPUs
   * the session finds with whether a DRM backend opens on each, and
   * whether wlr_multi_backend_add accepts a given sub-backend.
   */
  datatype Platform = Platform(
    hasX11: bool, hasRdp: bool, created: Known -> bool, sessionOk: bool,
    gpus: seq<int>, drmOk: seq<bool>, addOk: Sub -> bool)

  /** wlr_session_find_gpus fills at most 8 slots, and each GPU has an outcome. */
  predicate PlatformOk(p: Platform)
  {
    |p.gpus| <= 8 && |p.drmOk| == |p.gpus|
  }

  /** A backend created here, by what identifies it. */
  datatype Sub =
    | WithOutputs(kind: Known, outputs: nat)
    | FbdevSub
    | RdpSub(port: Option<int>)
    | LibinputSub
    | DrmSub(gpu: int, parent: Option<int>)

  /** The GPU of the first DRM backend that opens among the first `n`: the primary one. */
  function Primary(gpus: seq<int>, ok: seq<bool>, n: nat): (g: Option<int>)
    requires n <= |gpus| == |ok|
    ensures g.None? <==> forall i :: 0 <= i < n ==> !ok[i]
  {
    if n == 0 then None
    else
      var before := Primary(gpus, ok, n - 1);
      if before.Some? then before else if ok[n - 1] then Some(gpus[n - 1]) else None
  }

  /** The DRM backends opened among the first `n` GPUs, each created with the primary one found before it as parent. */
  function DrmOpened(gpus: seq<int>, ok: seq<bool>, n: nat): (s: seq<Sub>)
    requires n <= |gpus| == |ok|
    ensures |s| <= n
  {
    if n == 0 then []
    else DrmOpened(gpus, ok, n - 1) + (if ok[n - 1] then [DrmSub(gpus[n - 1], Primary(gpus, ok, n - 1))] else [])
  }

  /** The sub-backends that wlr_multi_backend_add accepts, in order. */
  function Kept(s: seq<Sub>, addOk: Sub -> bool): (k: seq<Sub>)
    ensures |k| <= |s|
  {
    if s == [] then [] else Kept(s[..|s| - 1], addOk) + (if addOk(s[|s| - 1]) then [s[|s| - 1]] else [])
  }

  /**
   * The primary DRM backend is the first one opened, created without a
   * parent; every DRM backend opened after it has it as parent.
   */
  lemma {:induction false} DrmParents(gpus: seq<int>, ok: seq<bool>, n: nat)
    requires n <= |gpus| == |ok|
    ensures var s := DrmOpened(gpus, ok, n);
      (forall i :: 0 <= i < |s| ==> s[i].DrmSub?) &&
      (s == [] <==> Primary(gpus, ok, n).None?) &&
      (s != [] ==> s[0].parent.None? && Primary(gpus, ok, n) == Some(s[0].gpu)) &&
      (forall i :: 0 < i < |s| ==> s[i].parent == Some(s[0].gpu))
  {
    if n > 0 {
      DrmParents(gpus, ok, n - 1);
      var s := DrmOpened(gpus, ok, n - 1);
      if ok[n - 1] && s == [] {
        assert Primary(gpus, ok, n - 1).None?;
      }
    }
  }

  /** One more GPU: the primary and the kept DRM backends grow by what that GPU contributes. */
  lemma DrmStep(gpus: seq<int>, ok: seq<bool>, i: nat, addOk: Sub -> bool)
    requires i < |gpus| == |ok|
    ensures Primary(gpus, ok, i + 1) ==
      if Primary(gpus, ok, i).Some? then Primary(gpus, ok, i) else if ok[i] then Some(gpus[i]) else None
    ensures var drm := DrmSub(gpus[i], Primary(gpus, ok, i));
      Kept(DrmOpened(gpus, ok, i + 1), addOk) ==
        Kept(DrmOpened(gpus, ok, i), addOk) + (if ok[i] && addOk(drm) then [drm] else [])
  {
    var grown := DrmOpened(gpus, ok, i + 1);
    if ok[i] {
      var drm := DrmSub(gpus[i], Primary(gpus, ok, i));
      assert grown == DrmOpened(gpus, ok, i) + [drm];
      assert grown[..|grown| - 1] == DrmOpened(gpus, ok, i) && grown[|grown| - 1] == drm;
    } else {
      assert grown == DrmOpened(gpus, ok, i) + [];
      assert grown == DrmOpened(gpus, ok, i);
      assert Kept(grown, addOk) == Kept(grown, addOk) + [];
    }
  }

  lemma AppendAssoc(a: seq<Sub>, b: seq<Sub>, c: seq<Sub>)
    ensures (a + b) + c == a + (b + c)
  {
  }

  /** The number of outputs an output-count variable asks for, created one by one. */
  method CreateOutputs(variable: Option<string>) returns (created: nat)
    ensures created == ParseOutputsEnv(variable)
  {
    var outputs := ParseOutputsEnv(variable);
    created := 0;
    for i := 0 to outputs
      invariant created == i
    {
      created := created + 1;
    }
  }

  /**
   * attempt_wl_backend, attempt_x11_backend, attempt_headless_backend and
   * attempt_noop_backend: the constructor, then as many outputs as the
   * backend's variable asks for.
   */
  method AttemptWithOutputs(k: Known, env: Env, p: Platform) returns (sub: Option<Sub>)
    requires HasOutputCount(k)
    ensures sub.None? <==> !p.created(k)
    ensures sub.Some? ==> sub.value == WithOutputs(k, ParseOutputsEnv(OutputsVariable(k, env)))
  {
    if !p.created(k) {
      return None;
    }
    var outputs := CreateOutputs(OutputsVariable(k, env));
    sub := Some(WithOutputs(k, outputs));
  }

  /**
   * attempt_rdp_backend as written: both TLS paths are required; the
   * constructor's result is returned unchecked, so its failure is the
   * attempt's; a port, when given, must pass the narrowed port check,
   * otherwise the backend is destroyed again.
   */
  function AttemptRdp(env: Env, p: Platform): (sub: Option<Sub>)
    ensures sub.Some? ==> env.rdpCertPath && env.rdpKeyPath && p.created(Rdp)
    ensures sub.Some? && env.rdpPort.Some? ==> sub.value == RdpSub(RdpPortAsWritten(env.rdpPort.value))
    ensures sub.Some? && env.rdpPort.None? ==> sub.value == RdpSub(None)
    ensures env.rdpCertPath && env.rdpKeyPath && p.created(Rdp) ==>
      (sub.None? <==> env.rdpPort.Some? && RdpPortAsWritten(env.rdpPort.value).None?)
  {
    if !env.rdpCertPath || !env.rdpKeyPath || !p.created(Rdp) then None
    else match env.rdpPort
      case None => Some(RdpSub(None))
      case Some(text) =>
        var port := RdpPortAsWritten(text);
        if port.None? then None else Some(RdpSub(port))
  }

  /** The narrowed check agrees with the intended one on every decimal port below 2^31. */
  lemma RdpPortAgrees(n: nat)
    requires n < TWO_31
    ensures RdpPortAsWritten(Decimal(n)) == RdpPort(Decimal(n))
  {
    StrtolOfDecimal(n);
  }

  /** With both TLS paths and a working constructor, WLR_RDP_PORT="4294967297" starts RDP on port 1. */
  lemma AttemptRdpWraps(env: Env, p: Platform)
    requires env.rdpCertPath && env.rdpKeyPath && p.created(Rdp)
    requires env.rdpPort == Some(Decimal(TWO_32 + 1))
    ensures AttemptRdp(env, p) == Some(RdpSub(Some(1)))
  {
    RdpPortAsWrittenWraps();
  }

  /** What the WLR_BACKENDS loop changes in the multi-backend: the sub-backends added, the session, and how many sessions were opened. */
  datatype Progress = Progress(added: seq<Sub>, session: bool, sessionsCreated: nat)

  /** A fresh multi-backend. */
  const FRESH: Progress := Progress([], false, 0)

  /**
   * attempt_backend_by_name from state `st`: the sub-backend it returns
   * and the state it leaves. DRM and libinput first open a session when
   * there is none; DRM adds every DRM backend it opens before returning
   * the primary one.
   */
  function ByName(name: string, env: Env, p: Platform, st: Progress): (Option<Sub>, Progress)
    requires PlatformOk(p)
  {
    match Recognise(name, p.hasX11, p.hasRdp)
    case None => (None, st)
    case Some(k) =>
      if HasOutputCount(k) then
        (if p.created(k) then Some(WithOutputs(k, ParseOutputsEnv(OutputsVariable(k, env)))) else None, st)
      else if k == Rdp then (AttemptRdp(env, p), st)
      else if k == Fbdev then (if p.created(Fbdev) then Some(FbdevSub) else None, st)
      else
        var withSession := if st.session then st else st.(session := p.sessionOk, sessionsCreated := st.sessionsCreated + 1);
        if !withSession.session then (None, withSession)
        else if k == Libinput then (if p.created(Libinput) then Some(LibinputSub) else None, withSession)
        else
          var primary := Primary(p.gpus, p.drmOk, |p.gpus|);
          (if primary.None? then None else Some(DrmSub(primary.value, None)),
           withSession.(added := withSession.added + Kept(DrmOpened(p.gpus, p.drmOk, |p.gpus|), p.addOk)))
  }

  /** One name of the WLR_BACKENDS loop from state `st`: the state after attempting and adding it, None when either fails. */
  function AfterName(name: string, env: Env, p: Platform, st: Progress): Option<Progress>
    requires PlatformOk(p)
  {
    var (sub, after) := ByName(name, env, p, st);
    if sub.Some? && p.addOk(sub.value) then Some(after.(added := after.added + [sub.value])) else None
  }

  /** The WLR_BACKENDS loop over `names` from state `st`: the final state, None when some name fails. */
  function ByNames(names: seq<string>, env: Env, p: Platform, st: Progress): Option<Progress>
    requires PlatformOk(p)
    decreases |names|
  {
    if names == [] then Some(st)
    else match AfterName(names[0], env, p, st)
      case None => None
      case Some(next) => ByNames(names[1..], env, p, next)
  }

  /** A name no built backend has makes the whole list fail, wherever it stands. */
  lemma {:induction false} ByNamesUnknownFails(names: seq<string>, env: Env, p: Platform, st: Progress, i: nat)
    requires PlatformOk(p) && i < |names| && Recognise(names[i], p.hasX11, p.hasRdp).None?
    ensures ByNames(names, env, p, st).None?
  {
    if i > 0 {
      match AfterName(names[0], env, p, st)
      case None =>
      case Some(next) =>
        assert names[1..][i - 1] == names[i];
        ByNamesUnknownFails(names[1..], env, p, next, i - 1);
    }
  }

  /**
   * A successful list keeps what was added before it and adds at least
   * one sub-backend per name.
   */
  lemma {:induction false} ByNamesGrows(names: seq<string>, env: Env, p: Platform, st: Progress)
    requires PlatformOk(p) && ByNames(names, env, p, st).Some?
    ensures var fin := ByNames(names, env, p, st).value.added;
      |fin| >= |st.added| + |names| && fin[..|st.added|] == st.added
  {
    if names != [] {
      var (sub, after) := ByName(names[0], env, p, st);
      var next := AfterName(names[0], env, p, st).value;
      assert after.added[..|st.added|] == st.added;
      ByNamesGrows(names[1..], env, p, next);
      var fin := ByNames(names, env, p, st).value.added;
      assert fin[..|next.added|][..|st.added|] == fin[..|st.added|];
    }
  }

  /** The sub-backends that the fallback leaves added on success, None when it fails. */
  function Fallback(env: Env, p: Platform): Option<seq<Sub>>
    requires PlatformOk(p)
  {
    if env.waylandDisplay && p.created(Wayland) then
      Some(Kept([WithOutputs(Wayland, ParseOutputsEnv(env.wlOutputs))], p.addOk))
    else if p.hasX11 && env.x11Display && p.created(X11) then
      Some(Kept([WithOutputs(X11, ParseOutputsEnv(env.x11Outputs))], p.addOk))
    else if p.sessionOk && p.created(Libinput) && Primary(p.gpus, p.drmOk, |p.gpus|).Some? then
      Some(Kept([LibinputSub] + DrmOpened(p.gpus, p.drmOk, |p.gpus|), p.addOk))
    else None
  }

  /** Kept filters each part of a concatenation on its own. */
  lemma {:induction false} KeptAppend(a: seq<Sub>, b: seq<Sub>, addOk: Sub -> bool)
    ensures Kept(a + b, addOk) == Kept(a, addOk) + Kept(b, addOk)
  {
    if b == [] {
      assert a + b == a;
    } else {
      var init := b[..|b| - 1];
      KeptAppend(a, init, addOk);
      assert (a + b)[..|a + b| - 1] == a + init;
    }
  }

  /**
   * `struct wlr_multi_backend` as autocreate uses it: the sub-backends
   * added so far, the session, how many sessions were opened for it, and
   * whether it was destroyed.
   */
  class Multi {
    var added: seq<Sub>
    var session: bool
    var sessionsCreated: nat
    var destroyed: bool

    constructor()
      ensures added == [] && !session && sessionsCreated == 0 && !destroyed
    {
      added := [];
      session := false;
      sessionsCreated := 0;
      destroyed := false;
    }

    /** The part of the multi-backend that autocreate changes. */
    function State(): Progress
      reads this
    {
      Progress(added, session, sessionsCreated)
    }

    /** wlr_multi_backend_add. */
    method Add(s: Sub, addOk: Sub -> bool) returns (ok: bool)
      modifies this`added
      ensures ok == addOk(s)
      ensures added == old(added) + (if ok then [s] else [])
    {
      ok := addOk(s);
      if ok {
        added := added + [s];
      }
    }

    /** wlr_session_destroy on the multi-backend's session, then wlr_backend_destroy on it. */
    method TearDown()
      modifies this`session, this`destroyed
      ensures !session && destroyed
    {
      session := false;
      destroyed := true;
    }

    /**
     * attempt_drm_backend: try every GPU the session found, passing the
     * primary backend found so far; add each one that opens and skip the
     * others; return the primary one, None when none opened.
     */
    method AttemptDrm(p: Platform) returns (primary: Option<int>)
      requires PlatformOk(p)
      modifies this`added
      ensures primary == Primary(p.gpus, p.drmOk, |p.gpus|)
      ensures added == old(added) + Kept(DrmOpened(p.gpus, p.drmOk, |p.gpus|), p.addOk)
    {
      primary := None;
      for i := 0 to |p.gpus|
        invariant primary == Primary(p.gpus, p.drmOk, i)
        invariant added == old(added) + Kept(DrmOpened(p.gpus, p.drmOk, i), p.addOk)
      {
        DrmStep(p.gpus, p.drmOk, i, p.addOk);
        ghost var before := added;
        primary := TryGpu(p, i, primary);
        AppendAssoc(old(added), Kept(DrmOpened(p.gpus, p.drmOk, i), p.addOk), added[|before|..]);
      }
    }

    /**
     * One GPU of attempt_drm_backend: create its DRM backend with the
     * primary found so far as parent; if it opens, it becomes the primary
     * when there is none yet, and it is handed to wlr_multi_backend_add.
     */
    method TryGpu(p: Platform, i: nat, primary: Option<int>) returns (next: Option<int>)
      requires i < |p.gpus| == |p.drmOk|
      modifies this`added
      ensures next == (if primary.Some? then primary else if p.drmOk[i] then Some(p.gpus[i]) else None)
      ensures var drm := DrmSub(p.gpus[i], primary);
        added == old(added) + (if p.drmOk[i] && p.addOk(drm) then [drm] else [])
    {
      next := primary;
      if !p.drmOk[i] {
        return;
      }
      var drm := DrmSub(p.gpus[i], primary);
      if primary.None? {
        next := Some(p.gpus[i]);
      }
      var _ := Add(drm, p.addOk);
    }

    /**
     * The session step of attempt_backend_by_name for DRM and libinput:
     * open a session only when the multi-backend has none yet.
     */
    method EnsureSession(p: Platform) returns (ok: bool)
      modifies this`session, this`sessionsCreated
      ensures ok == session
      ensures session == (old(session) || p.sessionOk)
      ensures sessionsCreated == old(sessionsCreated) + (if old(session) then 0 else 1)
    {
      if !session {
        session := p.sessionOk;
        sessionsCreated := sessionsCreated + 1;
      }
      ok := session;
    }

    /**
     * attempt_backend_by_name: None for a name it does not know; the
     * backend's own attempt otherwise, DRM and libinput after making sure
     * there is a session.
     */
    method AttemptByName(name: string, env: Env, p: Platform) returns (sub: Option<Sub>)
      requires PlatformOk(p)
      modifies this`added, this`session, this`sessionsCreated
      ensures (sub, State()) == ByName(name, env, p, old(State()))
      ensures var k := Recognise(name, p.hasX11, p.hasRdp);
        (k.None? ==> sub.None?) &&
        (k.Some? && HasOutputCount(k.value) ==>
          sub == (if p.created(k.value) then Some(WithOutputs(k.value, ParseOutputsEnv(OutputsVariable(k.value, env)))) else None)) &&
        (k == Some(Rdp) ==> sub == AttemptRdp(env, p)) &&
        (k == Some(Fbdev) ==> sub == (if p.created(Fbdev) then Some(FbdevSub) else None))
      ensures var k := Recognise(name, p.hasX11, p.hasRdp);
        (k.None? || !NeedsSession(k.value) ==> session == old(session) && sessionsCreated == old(sessionsCreated)) &&
        (k.Some? && NeedsSession(k.value) ==>
          session == (old(session) || p.sessionOk) &&
          sessionsCreated == old(sessionsCreated) + (if old(session) then 0 else 1) &&
          (!session ==> sub.None?))
      ensures var k := Recognise(name, p.hasX11, p.hasRdp);
        (k == Some(Libinput) && session ==> sub == (if p.created(Libinput) then Some(LibinputSub) else None)) &&
        (k == Some(Drm) && session ==>
          added == old(added) + Kept(DrmOpened(p.gpus, p.drmOk, |p.gpus|), p.addOk) &&
          sub == (match Primary(p.gpus, p.drmOk, |p.gpus|)
                  case None => None
                  case Some(g) => Some(DrmSub(g, None)))) &&
        (!(k == Some(Drm) && session) ==> added == old(added))
    {
      var k := Recognise(name, p.hasX11, p.hasRdp);
      if k.None? {
        return None;
      }
      match k.value
      case Wayland => sub := AttemptWithOutputs(Wayland, env, p);
      case X11 => sub := AttemptWithOutputs(X11, env, p);
      case Headless => sub := AttemptWithOutputs(Headless, env, p);
      case Noop => sub := AttemptWithOutputs(Noop, env, p);
      case Rdp => sub := AttemptRdp(env, p);
      case Fbdev => sub := if p.created(Fbdev) then Some(FbdevSub) else None;
      case Libinput =>
        var ok := EnsureSession(p);
        if !ok {
          return None;
        }
        sub := if p.created(Libinput) then Some(LibinputSub) else None;
      case Drm =>
        var ok := EnsureSession(p);
        if !ok {
          return None;
        }
        var primary := AttemptDrm(p);
        sub := if primary.None? then None else Some(DrmSub(primary.value, None));
    }
  }

  /** The names in WLR_BACKENDS, as strtok_r on "," returns them. */
  function BackendNames(names: string): seq<string>
  {
    Tokens(names, ',')
  }

  /** The name selects a backend that needs a session. */
  predicate NameNeedsSession(name: string, p: Platform)
  {
    var k := Recognise(name, p.hasX11, p.hasRdp);
    k.Some? && NeedsSession(k.value)
  }

  /** Some name in the list needs a session. */
  predicate SomeNeedSession(names: seq<string>, p: Platform)
  {
    names != [] && (SomeNeedSession(names[..|names| - 1], p) || NameNeedsSession(names[|names| - 1], p))
  }

  /** Every name in the list selects a backend. */
  predicate AllKnown(names: seq<string>, p: Platform)
  {
    names == [] || (AllKnown(names[..|names| - 1], p) && Recognise(names[|names| - 1], p.hasX11, p.hasRdp).Some?)
  }

  /** The list's predicates over one more name. */
  lemma NamesStep(names: seq<string>, i: nat, p: Platform)
    requires i < |names|
    ensures SomeNeedSession(names[..i + 1], p) == (SomeNeedSession(names[..i], p) || NameNeedsSession(names[i], p))
    ensures AllKnown(names[..i + 1], p) == (AllKnown(names[..i], p) && Recognise(names[i], p.hasX11, p.hasRdp).Some?)
  {
    assert names[..i + 1][..i] == names[..i];
  }

  /** AllKnown is the statement about every name. */
  lemma {:induction false} AllKnownEvery(names: seq<string>, p: Platform)
    ensures AllKnown(names, p) <==> forall t :: t in names ==> Recognise(t, p.hasX11, p.hasRdp).Some?
  {
    if names != [] {
      var init := names[..|names| - 1];
      AllKnownEvery(init, p);
      assert names == init + [names[|names| - 1]];
    }
  }

  /**
   * The WLR_BACKENDS branch of wlr_backend_autocreate: try the names in
   * order and add each backend; the first name that fails, or whose
   * backend is refused, ends the loop with the session and the
   * multi-backend destroyed. Success needs every name to be known, and a
   * session is opened once, exactly when some name needs one.
   */
  method AutocreateByNames(m: Multi, names: string, env: Env, p: Platform) returns (ok: bool)
    requires PlatformOk(p)
    requires m.added == [] && !m.session && m.sessionsCreated == 0 && !m.destroyed
    modifies m
    ensures ok ==> !m.destroyed
    ensures !ok ==> m.destroyed && !m.session
    ensures ok ==> AllKnown(BackendNames(names), p)
    ensures ok ==> (m.session <==> SomeNeedSession(BackendNames(names), p))
    ensures ok ==> m.sessionsCreated == (if m.session then 1 else 0)
    ensures ok <==> ByNames(BackendNames(names), env, p, FRESH).Some?
    ensures ok ==> m.State() == ByNames(BackendNames(names), env, p, FRESH).value
  {
    var tokens := BackendNames(names);
    for i := 0 to |tokens|
      invariant !m.destroyed && AllKnown(tokens[..i], p)
      invariant m.session <==> SomeNeedSession(tokens[..i], p)
      invariant m.sessionsCreated == (if m.session then 1 else 0)
      invariant ByNames(tokens, env, p, FRESH) == ByNames(tokens[i..], env, p, m.State())
    {
      ghost var before := m.State();
      ok := AddByName(m, tokens[i], env, p);
      assert tokens[i..][0] == tokens[i] && tokens[i..][1..] == tokens[i + 1..];
      if !ok {
        return;
      }
      NamesStep(tokens, i, p);
    }
    assert tokens[..|tokens|] == tokens;
    return true;
  }

  /**
   * One name of the WLR_BACKENDS loop: attempt it and add its backend;
   * on either failure destroy the session and the multi-backend.
   */
  method AddByName(m: Multi, name: string, env: Env, p: Platform) returns (ok: bool)
    requires PlatformOk(p) && !m.destroyed
    modifies m
    ensures ok ==> !m.destroyed && Recognise(name, p.hasX11, p.hasRdp).Some?
    ensures ok ==>
      m.session == (old(m.session) || NeedsSession(Recognise(name, p.hasX11, p.hasRdp).value)) &&
      m.sessionsCreated == old(m.sessionsCreated) + (if !old(m.session) && m.session then 1 else 0)
    ensures !ok ==> m.destroyed && !m.session
    ensures var (sub, after) := ByName(name, env, p, old(m.State()));
      (ok <==> sub.Some? && p.addOk(sub.value)) &&
      (ok ==> m.State() == after.(added := after.added + [sub.value])) &&
      (!ok ==> m.added == after.added && m.sessionsCreated == after.sessionsCreated)
  {
    var sub := m.AttemptByName(name, env, p);
    if sub.None? {
      m.TearDown();
      return false;
    }
    var added := m.Add(sub.value, p.addOk);
    if !added {
      m.TearDown();
      return false;
    }
    return true;
  }

  /**
   * The branch of wlr_backend_autocreate without WLR_BACKENDS: a Wayland
   * backend when a Wayland display is advertised and it opens, else an
   * X11 one likewise, else a session with libinput and at least one DRM
   * backend; a failure on that last path destroys the session and the
   * multi-backend.
   */
  method AutocreateFallback(m: Multi, env: Env, p: Platform) returns (ok: bool)
    requires PlatformOk(p)
    requires m.added == [] && !m.session && m.sessionsCreated == 0 && !m.destroyed
    modifies m
    ensures ok ==> !m.destroyed
    ensures !ok ==> m.destroyed && !m.session
    ensures env.waylandDisplay && p.created(Wayland) ==>
      ok && m.added == Kept([WithOutputs(Wayland, ParseOutputsEnv(env.wlOutputs))], p.addOk)
    ensures !(env.waylandDisplay && p.created(Wayland)) && p.hasX11 && env.x11Display && p.created(X11) ==>
      ok && m.added == Kept([WithOutputs(X11, ParseOutputsEnv(env.x11Outputs))], p.addOk)
    ensures !(env.waylandDisplay && p.created(Wayland)) && !(p.hasX11 && env.x11Display && p.created(X11)) ==>
      m.sessionsCreated == 1 &&
      (ok <==> p.sessionOk && p.created(Libinput) && Primary(p.gpus, p.drmOk, |p.gpus|).Some?) &&
      m.added == (if p.sessionOk && p.created(Libinput)
                  then Kept([LibinputSub], p.addOk) + Kept(DrmOpened(p.gpus, p.drmOk, |p.gpus|), p.addOk)
                  else [])
    ensures ok <==> Fallback(env, p).Some?
    ensures ok ==> m.added == Fallback(env, p).value
  {
    if env.waylandDisplay {
      var wl := AttemptWithOutputs(Wayland, env, p);
      if wl.Some? {
        var _ := m.Add(wl.value, p.addOk);
        assert Kept([wl.value], p.addOk) == (if p.addOk(wl.value) then [wl.value] else []);
        return true;
      }
    }
    if p.hasX11 && env.x11Display {
      var x11 := AttemptWithOutputs(X11, env, p);
      if x11.Some? {
        var _ := m.Add(x11.value, p.addOk);
        assert Kept([x11.value], p.addOk) == (if p.addOk(x11.value) then [x11.value] else []);
        return true;
      }
    }
    m.session := p.sessionOk;
    m.sessionsCreated := m.sessionsCreated + 1;
    if !m.session {
      m.TearDown();
      return false;
    }
    if !p.created(Libinput) {
      m.TearDown();
      return false;
    }
    var _ := m.Add(LibinputSub, p.addOk);
    assert m.added == Kept([LibinputSub], p.addOk);
    var primary := m.AttemptDrm(p);
    KeptAppend([LibinputSub], DrmOpened(p.gpus, p.drmOk, |p.gpus|), p.addOk);
    if primary.None? {
      m.TearDown();
      return false;
    }
    return true;
  }

  /**
   * wlr_backend_autocreate: allocate the multi-backend, then take the
   * WLR_BACKENDS branch when the variable is set (after copying it), the
   * fallback otherwise. `multi` is the multi-backend allocated, returned
   * as `r` only on success.
   */
  method Autocreate(env: Env, p: Platform, multiOk: bool, copyOk: bool) returns (r: Option<Multi>, multi: Option<Multi>)
    requires PlatformOk(p)
    ensures multi.None? <==> !multiOk
    ensures multi.Some? ==> fresh(multi.value)
    ensures r.Some? ==> r == multi && !r.value.destroyed
    ensures r.None? && multi.Some? ==> multi.value.destroyed && !multi.value.session
    ensures r.Some? && env.backends.Some? ==>
      copyOk &&
      AllKnown(BackendNames(env.backends.value), p) &&
      (r.value.session <==> SomeNeedSession(BackendNames(env.backends.value), p)) &&
      r.value.sessionsCreated == (if r.value.session then 1 else 0)
    ensures multiOk && env.backends.Some? ==>
      (r.Some? <==> copyOk && ByNames(BackendNames(env.backends.value), env, p, FRESH).Some?)
    ensures r.Some? && env.backends.Some? ==> r.value.State() == ByNames(BackendNames(env.backends.value), env, p, FRESH).value
    ensures multiOk && env.backends.None? ==> (r.Some? <==> Fallback(env, p).Some?)
    ensures r.Some? && env.backends.None? ==> r.value.added == Fallback(env, p).value
  {
    if !multiOk {
      return None, None;
    }
    var m := new Multi();
    multi := Some(m);
    var ok;
    if env.backends.Some? {
      if !copyOk {
        m.TearDown();
        return None, multi;
      }
      ok := AutocreateByNames(m, env.backends.value, env, p);
    } else {
      ok := AutocreateFallback(m, env, p);
    }
    r := if ok then multi else None;
  }
}
