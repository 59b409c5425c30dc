/**
 * One framebuffer-backed output of the fbdev backend: probing the device,
 * the fixed mode it reports, its name, and the per-output operations the
 * output interface exposes (mode set, attach, commit, the frame timer).
 * Operations that change the backend's output list live in FbdevBackend.
 */
module FbdevOutput {
  import opened CInt
  import opened Text
  import opened Wrappers
  import opened Refresh
  import Egl

  /** A (width, height, refresh) triple as `wlr_output` reports it. */
  datatype Mode = Mode(width: int, height: int, refresh: int)

  /**
   * The device behind a path, as far as determine_fb_info can see it:
   * whether `open(path, O_RDWR)` succeeds, whether FBIOGET_VSCREENINFO
   * succeeds, and the variable screen information that ioctl returns.
   */
  datatype FbDevice = FbDevice(opens: bool, ioctlOk: bool, info: ScreenInfo)

  /** The system calls determine_fb_info makes, in order. */
  datatype Syscall = Open | Ioctl | Close

  /** The outcome of a probe: the mode found, if any, and the calls made. */
  datatype Probe = Probe(mode: Option<Mode>, calls: seq<Syscall>)

  /**
   * determine_fb_info. The probe succeeds exactly when both the open and
   * the ioctl succeed, and then yields xres, yres and the derived refresh
   * rate. A descriptor that was opened is closed exactly once, as the last
   * call, on the failing path as well as the succeeding one.
   */
  function DetermineFbInfo(dev: FbDevice): (p: Probe)
    ensures p.mode.Some? <==> dev.opens && dev.ioctlOk
    ensures p.mode.Some? ==>
      p.mode.value == Mode(dev.info.xres, dev.info.yres, CalculateRefreshRate(dev.info))
    ensures p.calls != [] && p.calls[0] == Open
    ensures dev.opens ==>
      p.calls[|p.calls| - 1] == Close && multiset(p.calls)[Close] == 1 && multiset(p.calls)[Open] == 1
    ensures !dev.opens ==> Close !in p.calls && Ioctl !in p.calls
  {
    if !dev.opens then Probe(None, [Open])
    else if !dev.ioctlOk then Probe(None, [Open, Ioctl, Close])
    else Probe(Some(Mode(dev.info.xres, dev.info.yres, CalculateRefreshRate(dev.info))), [Open, Ioctl, Close])
  }

  /** The capacity of `wlr_output.name`, terminator included. */
  const NAME_CAPACITY: nat := 24

  /** What `snprintf(buf, n, ...)` stores: at most n - 1 characters of the text. */
  function Truncate(s: string, n: nat): (r: string)
    requires n >= 1
    ensures |r| <= n - 1 && r <= s
    ensures |s| <= n - 1 ==> r == s
  {
    if |s| <= n - 1 then s else s[..n - 1]
  }

  /** The name `FBDEV-<n>` that snprintf writes into the 24-byte name field. */
  function OutputName(num: nat): (name: string)
    ensures |name| < NAME_CAPACITY
    ensures "FBDEV-" <= name
  {
    Truncate("FBDEV-" + Decimal(num), NAME_CAPACITY)
  }

  /**
   * Names fit without truncation for counters below 10^17, so different
   * counter values give different names.
   */
  lemma OutputNamesDistinct(m: nat, n: nat)
    requires m < Pow10(17) && n < Pow10(17) && m != n
    ensures OutputName(m) != OutputName(n)
  {
    DecimalLength(m, 17);
    DecimalLength(n, 17);
    assert OutputName(m) == "FBDEV-" + Decimal(m);
    assert OutputName(n) == "FBDEV-" + Decimal(n);
    if OutputName(m) == OutputName(n) {
      assert Decimal(m) == OutputName(m)[6..];
      assert Decimal(n) == OutputName(n)[6..];
      DecimalInjective(m, n);
    }
  }

  /**
   * The part of fbdev_add_output between a successful probe and the
   * make-current call: the output is initialised with this backend's
   * table, re-reports its probed mode, and gets its make and model; its
   * name is formed from `num`.
   */
  method NewOutput(num: nat, m: Mode) returns (o: Output)
    ensures fresh(o) && IsFbdevOutput(o.impl) && o.num == num && o.Name() == OutputName(num)
    ensures Mode(o.width, o.height, o.refresh) == m && o.reported == m
    ensures o.make == MAKE && o.model == MAKE
    ensures o.timer == NoTimer && !o.enabled
    ensures o.frames == 0 && o.presents == 0 && o.announced == 0
  {
    o := new Output(num, m);
    var _ := o.SetCustomMode(o.width, o.height, 0);
    o.make := MAKE;
    o.model := MAKE;
  }

  /** The frame timer: not yet created, created but idle, or due after `delay`. */
  datatype Timer = NoTimer | Unarmed | Armed(delay: int)

  /** The implementation table an output points at. */
  datatype OutputImpl = FbdevOutputImpl | OtherOutputImpl(tag: nat)

  /** wlr_output_is_fbdev: the output uses this backend's implementation table. */
  predicate IsFbdevOutput(impl: OutputImpl)
  {
    impl == FbdevOutputImpl
  }

  /** The text the backend copies into `make` and `model`. */
  const MAKE: string := "fbdev"

  /**
   * A `struct wlr_fbdev_output` together with the `wlr_output` state it
   * embeds. The probed geometry and rate, and the counter value its name
   * is formed from, never change once the output exists.
   */
  class Output {
    /** The implementation table set by wlr_output_init. */
    const impl: OutputImpl
    /** The geometry and rate captured by the probe. */
    const width: int
    const height: int
    const refresh: int
    /** The counter value formatted into the name. */
    const num: nat
    /** What the embedded `wlr_output` reports as its current mode. */
    var reported: Mode
    var make: string
    var model: string
    var timer: Timer
    var enabled: bool
    /** Frame, present and new-output events sent for this output. */
    var frames: nat
    var presents: nat
    var announced: nat

    /** The fixed mode: probed geometry and a rate the derivation can produce, echoed as the reported mode. */
    ghost predicate Configured()
      reads this
    {
      1 <= refresh <= MAX_REFRESH &&
      reported == Mode(width, height, refresh) &&
      num >= 1 && IsFbdevOutput(impl)
    }

    /** The `name` field. */
    function Name(): string
    {
      OutputName(num)
    }

    /**
     * The zeroed allocation after wlr_output_init with this backend's
     * table, holding the probe's geometry and rate and its counter value.
     */
    constructor (num: nat, m: Mode)
      ensures impl == FbdevOutputImpl && this.num == num
      ensures width == m.width && height == m.height && refresh == m.refresh
      ensures reported == Mode(0, 0, 0) && make == "" && model == ""
      ensures timer == NoTimer && !enabled
      ensures frames == 0 && presents == 0 && announced == 0
    {
      impl := FbdevOutputImpl;
      this.num := num;
      width, height, refresh := m.width, m.height, m.refresh;
      reported := Mode(0, 0, 0);
      make, model := "", "";
      timer := NoTimer;
      enabled := false;
      frames, presents, announced := 0, 0, 0;
    }

    /**
     * output_set_custom_mode: whatever is requested, the output re-reports
     * its stored geometry and rate, and the call succeeds.
     */
    method SetCustomMode(requestedWidth: int, requestedHeight: int, requestedRefresh: int) returns (ok: bool)
      modifies this
      ensures ok
      ensures reported == Mode(width, height, refresh)
      ensures make == old(make) && model == old(model)
      ensures timer == old(timer) && enabled == old(enabled)
      ensures frames == old(frames) && presents == old(presents) && announced == old(announced)
    {
      reported := Mode(width, height, refresh);
      return true;
    }

    /**
     * output_attach_render: make the backend's context current. On failure
     * the caller's buffer age is left unwritten; on success it receives
     * egl_get_buffer_age's answer. The output itself is not changed.
     */
    method AttachRender(makeCurrentOk: bool, hasBufferAgeExt: bool, ageQuery: Option<int>)
      returns (ok: bool, age: Option<int>)
      ensures ok == makeCurrentOk
      ensures !ok ==> age == None
      ensures ok ==> age == Some(Egl.BufferAge(hasBufferAgeExt, ageQuery))
      ensures ok && !hasBufferAgeExt ==> age == Some(-1)
    {
      if !makeCurrentOk {
        return false, None;
      }
      return true, Some(Egl.BufferAge(hasBufferAgeExt, ageQuery));
    }

    /**
     * output_commit: swap buffers without damage; a failed swap returns
     * false with no present event, a successful one sends exactly one.
     */
    method Commit(swapOk: bool) returns (ok: bool)
      modifies this
      ensures ok == swapOk
      ensures presents == old(presents) + (if ok then 1 else 0)
      ensures reported == old(reported)
      ensures make == old(make) && model == old(model)
      ensures timer == old(timer) && enabled == old(enabled)
      ensures frames == old(frames) && announced == old(announced)
    {
      if !swapOk {
        return false;
      }
      presents := presents + 1;
      return true;
    }

    /**
     * What backend_start does for each output, and fbdev_add_output for a
     * new output of a started backend: arm the timer at `1000000 / refresh`,
     * enable the output and announce it with a new-output event.
     */
    method Announce()
      requires 1 <= refresh <= MAX_REFRESH
      modifies this
      ensures timer == Armed(FrameDelay(refresh)) && enabled && announced == old(announced) + 1
      ensures reported == old(reported) && make == old(make) && model == old(model)
      ensures frames == old(frames) && presents == old(presents)
    {
      timer := Armed(FrameDelay(refresh));
      enabled := true;
      announced := announced + 1;
    }

    /**
     * signal_frame: the timer fired, so send one frame event and re-arm
     * the same timer with `1000000 / refresh`.
     */
    method SignalFrame()
      requires Configured() && timer.Armed?
      modifies this
      ensures Configured()
      ensures frames == old(frames) + 1
      ensures timer == Armed(FrameDelay(refresh))
      ensures reported == old(reported)
      ensures make == old(make) && model == old(model)
      ensures enabled == old(enabled) && presents == old(presents) && announced == old(announced)
    {
      frames := frames + 1;
      timer := Armed(FrameDelay(refresh));
    }
  }
}
