/**
 * The fbdev backend: creation with its failure paths, the output list it
 * owns (adding, discovering and destroying outputs), start, and teardown.
 * The output list is `wl_list` order: wl_list_insert puts a new output at
 * the head, so the newest output comes first.
 */
module FbdevBackend {
  import opened CInt
  import opened Text
  import opened Wrappers
  import opened Refresh
  import opened FbdevOutput
  import Egl

  /** Teardown steps, in the order the backend performs them. */
  datatype Event =
    | TimerRemoved(num: nat)
    | SurfaceDestroyed
    | DestroySignal
    | RendererDestroyed
    | EglFinished
    | UdevReleased

  /** What output_destroy does for the output numbered `num` (named `FBDEV-<num>`). */
  function OutputTeardown(num: nat): seq<Event>
  {
    [TimerRemoved(num), SurfaceDestroyed]
  }

  /** Destroying the outputs numbered `nums`, one after the other. */
  function TeardownAll(nums: seq<nat>): (t: seq<Event>)
    ensures |t| == 2 * |nums|
  {
    if nums == [] then [] else OutputTeardown(nums[0]) + TeardownAll(nums[1..])
  }

  lemma {:induction false} TeardownAllAppend(a: seq<nat>, b: seq<nat>)
    ensures TeardownAll(a + b) == TeardownAll(a) + TeardownAll(b)
  {
    if a == [] {
      assert a + b == b;
    } else {
      assert (a + b)[1..] == a[1..] + b;
      TeardownAllAppend(a[1..], b);
    }
  }

  /** The numbers of a list of outputs, in list order. */
  function Nums(os: seq<Output>): (ns: seq<nat>)
    ensures |ns| == |os|
  {
    if os == [] then [] else [os[0].num] + Nums(os[1..])
  }

  lemma {:induction false} NumsAppend(a: seq<Output>, b: seq<Output>)
    ensures Nums(a + b) == Nums(a) + Nums(b)
  {
    if a == [] {
      assert a + b == b;
    } else {
      assert (a + b)[1..] == a[1..] + b;
      NumsAppend(a[1..], b);
    }
  }

  /** Destroying one more output of a list extends the teardown by that output's steps. */
  lemma TeardownStep(os: seq<Output>, k: nat)
    requires k < |os|
    ensures TeardownAll(Nums(os[..k + 1])) == TeardownAll(Nums(os[..k])) + OutputTeardown(os[k].num)
  {
    assert os[..k + 1] == os[..k] + [os[k]];
    NumsAppend(os[..k], [os[k]]);
    assert Nums([os[k]]) == [os[k].num];
    TeardownAllAppend(Nums(os[..k]), [os[k].num]);
  }

  /** Position of an output in a list holding it. */
  function IndexOf(os: seq<Output>, o: Output): (i: nat)
    requires o in os
    ensures i < |os| && os[i] == o
    ensures forall j :: 0 <= j < i ==> os[j] != o
  {
    if os[0] == o then 0 else 1 + IndexOf(os[1..], o)
  }

  /** The implementation table a backend points at. */
  datatype BackendImpl = FbdevBackendImpl | OtherBackendImpl(tag: nat)

  /** wlr_backend_is_fbdev: the backend uses this file's implementation table. */
  predicate IsFbdevBackend(impl: BackendImpl)
  {
    impl == FbdevBackendImpl
  }

  /** The renderer constructor the backend is created with. */
  datatype RendererFactory = RendererAutocreate | CustomFactory(tag: nat)

  /** A NULL constructor stands for wlr_renderer_autocreate. */
  function ChosenFactory(requested: Option<RendererFactory>): (f: RendererFactory)
    ensures requested.None? ==> f == RendererAutocreate
    ensures requested.Some? ==> f == requested.value
  {
    match requested
    case None => RendererAutocreate
    case Some(f) => f
  }

  /** The EGL config attributes the backend hands to the renderer constructor. */
  const CONFIG_ATTRIBS: seq<int> :=
    [Egl.EGL_BUFFER_SIZE, 32, Egl.EGL_RENDERABLE_TYPE, Egl.EGL_OPENGL_ES2_BIT, Egl.EGL_NONE]

  /** The config asks for a 32-bit buffer and ES2 renderability, and nothing else. */
  lemma ConfigRequest(key: int)
    ensures Egl.Terminated(CONFIG_ATTRIBS)
    ensures Egl.Lookup(CONFIG_ATTRIBS, Egl.EGL_BUFFER_SIZE) == Some(32)
    ensures Egl.Lookup(CONFIG_ATTRIBS, Egl.EGL_RENDERABLE_TYPE) == Some(Egl.EGL_OPENGL_ES2_BIT)
    ensures key != Egl.EGL_BUFFER_SIZE && key != Egl.EGL_RENDERABLE_TYPE ==>
      Egl.Lookup(CONFIG_ATTRIBS, key) == None
  {
    var tail := [Egl.EGL_RENDERABLE_TYPE, Egl.EGL_OPENGL_ES2_BIT, Egl.EGL_NONE];
    assert CONFIG_ATTRIBS[2..] == tail;
    assert tail[2..] == [Egl.EGL_NONE];
    assert Egl.Lookup([Egl.EGL_NONE], key) == None;
    assert key != Egl.EGL_RENDERABLE_TYPE ==> Egl.Lookup(tail, key) == None;
  }

  /** What a failed wlr_fbdev_backend_create leaves allocated. */
  datatype Leak = NothingLeaked | BackendLeaked | UdevLeaked

  /** How fbdev_add_output ended. */
  datatype AddOutcome = AllocFailed | ProbeFailed | ContextFailed | Added(output: Output)

  /**
   * One udev enumeration entry: its syspath, and the device
   * udev_device_new_from_syspath makes of it, with its devnode and the
   * framebuffer that devnode opens.
   */
  datatype UdevDevice = UdevDevice(devnode: Option<string>, fb: FbDevice)
  datatype UdevEntry = UdevEntry(path: Option<string>, device: Option<UdevDevice>)

  /** What the discovery loop does with one entry. */
  datatype Step = SkipNoPath | SkipNoDevice | SkipNoDevnode | UseDevice(fb: FbDevice)

  /**
   * The loop body as written: the second guard re-tests the path, which is
   * known to be present at that point, so a missing device is passed on to
   * udev_device_get_devnode, which answers NULL for it.
   */
  function ExamineAsWritten(e: UdevEntry): (s: Step)
    ensures s != SkipNoDevice
  {
    if e.path.None? then SkipNoPath
    else if e.path.None? then SkipNoDevice
    else
      var devnode := if e.device.None? then None else e.device.value.devnode;
      if devnode.None? then SkipNoDevnode
      else UseDevice(e.device.value.fb)
  }

  /** The loop body with the second guard testing the device, as its message says. */
  function Examine(e: UdevEntry): (s: Step)
    ensures s == SkipNoPath <==> e.path.None?
    ensures s == SkipNoDevice <==> e.path.Some? && e.device.None?
    ensures s.UseDevice? <==> e.path.Some? && e.device.Some? && e.device.value.devnode.Some?
    ensures s.UseDevice? ==> s.fb == e.device.value.fb
  {
    if e.path.None? then SkipNoPath
    else if e.device.None? then SkipNoDevice
    else if e.device.value.devnode.None? then SkipNoDevnode
    else UseDevice(e.device.value.fb)
  }

  /**
   * The misplaced guard never fires: an entry whose device could not be
   * made is reported by the devnode guard instead. Which entry is used,
   * and with which framebuffer, is the same either way.
   */
  lemma DeviceGuardAsWritten(e: UdevEntry)
    ensures ExamineAsWritten(e).UseDevice? <==> Examine(e).UseDevice?
    ensures Examine(e).UseDevice? ==> ExamineAsWritten(e) == Examine(e)
    ensures e.path.Some? && e.device.None? ==>
      Examine(e) == SkipNoDevice && ExamineAsWritten(e) == SkipNoDevnode
  {
  }

  /** The first entry the discovery loop would use, if any. */
  function FirstUsable(entries: seq<UdevEntry>): (k: Option<nat>)
    ensures k.Some? ==> k.value < |entries| && Examine(entries[k.value]).UseDevice?
    ensures k.Some? ==> forall j :: 0 <= j < k.value ==> !Examine(entries[j]).UseDevice?
    ensures k.None? ==> forall j :: 0 <= j < |entries| ==> !Examine(entries[j]).UseDevice?
  {
    if entries == [] then None
    else if Examine(entries[0]).UseDevice? then Some(0)
    else match FirstUsable(entries[1..])
      case None => None
      case Some(k) => Some(k + 1)
  }

  /**
   * The walk of wlr_fbdev_add_outputs over the enumerated entries with the
   * loop body as written: the first entry it would use, if any, which is
   * the first usable one.
   */
  method FindUsable(entries: seq<UdevEntry>) returns (k: Option<nat>)
    ensures k == FirstUsable(entries)
    ensures k.Some? ==> ExamineAsWritten(entries[k.value]) == Examine(entries[k.value])
  {
    var i := 0;
    while i < |entries|
      invariant 0 <= i <= |entries|
      invariant forall j :: 0 <= j < i ==> !Examine(entries[j]).UseDevice?
    {
      DeviceGuardAsWritten(entries[i]);
      var step := ExamineAsWritten(entries[i]);
      if step.UseDevice? {
        FirstUsableIs(entries, i);
        return Some(i);
      }
      i := i + 1;
    }
    return None;
  }

  /** Output numbers strictly decrease along the list: newest first, and no output twice. */
  ghost predicate OrderedNums(os: seq<Output>)
  {
    forall i, j :: 0 <= i < j < |os| ==> os[i].num > os[j].num
  }

  lemma OrderedDistinct(os: seq<Output>, i: int, j: int)
    requires OrderedNums(os) && 0 <= i < |os| && 0 <= j < |os| && i != j
    ensures os[i] != os[j]
  {
    if i < j {
      assert os[i].num > os[j].num;
    } else {
      assert os[j].num > os[i].num;
    }
  }

  lemma OrderedRemove(os: seq<Output>, i: int)
    requires OrderedNums(os) && 0 <= i < |os|
    ensures OrderedNums(os[..i] + os[i + 1..])
  {
    var r := os[..i] + os[i + 1..];
    forall a, b | 0 <= a < b < |r|
      ensures r[a].num > r[b].num
    {
      var a', b' := if a < i then a else a + 1, if b < i then b else b + 1;
      assert r[a] == os[a'] && r[b] == os[b'];
    }
  }

  /**
   * What holds of every output in a backend's list for as long as it is
   * there, all of it fixed when the output is made: this backend's
   * implementation table, a rate the derivation can produce, and a number
   * the counter has already handed out.
   */
  ghost predicate Listed(o: Output, lastOutputNum: nat)
  {
    IsFbdevOutput(o.impl) && 1 <= o.refresh <= MAX_REFRESH && 1 <= o.num <= lastOutputNum
  }

  /**
   * The per-output state that follows the backend's started flag: the
   * probed mode is reported, and the output is armed at `1000000 / refresh`,
   * enabled and announced exactly when the backend has started.
   */
  ghost predicate Ready(o: Output, started: bool)
    reads o
  {
    1 <= o.refresh <= MAX_REFRESH &&
    o.reported == Mode(o.width, o.height, o.refresh) &&
    (started ==> o.enabled && o.timer == Armed(FrameDelay(o.refresh)) && o.announced >= 1) &&
    (!started ==> !o.enabled && o.timer == Unarmed && o.announced == 0)
  }

  /** An output numbered above every listed one can go at the head of the list. */
  lemma ListedAtHead(o: Output, os: seq<Output>, last: nat)
    requires last >= 1 && OrderedNums(os) && forall i :: 0 <= i < |os| ==> Listed(os[i], last - 1)
    requires Listed(o, last) && o.num == last
    ensures OrderedNums([o] + os) && forall i :: 0 <= i < |os| + 1 ==> Listed(([o] + os)[i], last)
  {
    var l := [o] + os;
    forall i, j | 0 <= i < j < |l|
      ensures l[i].num > l[j].num
    {
      if i > 0 {
        assert l[i] == os[i - 1] && l[j] == os[j - 1];
      } else {
        assert Listed(os[j - 1], last - 1);
      }
    }
  }

  /** A ready output at the head of a ready list leaves the list ready. */
  lemma ReadyAtHead(o: Output, os: seq<Output>, started: bool)
    requires Ready(o, started) && forall i :: 0 <= i < |os| ==> Ready(os[i], started)
    ensures forall i :: 0 <= i < |os| + 1 ==> Ready(([o] + os)[i], started)
  {
    forall i | 0 <= i < |os| + 1
      ensures Ready(([o] + os)[i], started)
    {
      if i > 0 {
        assert ([o] + os)[i] == os[i - 1];
      }
    }
  }

  /** A `struct wlr_fbdev_backend`. */
  class Backend {
    const impl: BackendImpl
    /** The renderer constructor used and the config it was given. */
    const factory: RendererFactory
    const configAttribs: seq<int>
    /** `outputs`, newest first. */
    var outputs: seq<Output>
    var lastOutputNum: nat
    var started: bool
    /** The display-destroy listener is registered. */
    var listening: bool
    var udevHeld: bool
    var rendererLive: bool
    var eglLive: bool
    var freed: bool
    /** Teardown steps performed so far. */
    var trace: seq<Event>

    /** The list invariant: newest first, no output twice, every output listed. */
    ghost predicate Valid()
      reads this`outputs, this`lastOutputNum, this`freed
    {
      IsFbdevBackend(impl) && !freed && OrderedNums(outputs) &&
      (forall i :: 0 <= i < |outputs| ==> Listed(outputs[i], lastOutputNum))
    }

    /** Every listed output is in the state the started flag calls for. */
    ghost predicate Running()
      reads this`outputs, this`started, outputs
    {
      forall i :: 0 <= i < |outputs| ==> Ready(outputs[i], started)
    }

    /** The state after creation succeeds: the zeroed allocation with the listener, udev context, renderer and EGL in place. */
    constructor Init(factory: RendererFactory)
      ensures Valid() && Running()
      ensures this.factory == factory && configAttribs == CONFIG_ATTRIBS
      ensures outputs == [] && lastOutputNum == 0 && !started
      ensures listening && udevHeld && rendererLive && eglLive && trace == []
    {
      impl := FbdevBackendImpl;
      this.factory := factory;
      configAttribs := CONFIG_ATTRIBS;
      outputs := [];
      lastOutputNum := 0;
      started := false;
      listening := true;
      udevHeld := true;
      rendererLive := true;
      eglLive := true;
      freed := false;
      trace := [];
    }

    /**
     * wlr_fbdev_backend_create. NULL on allocation failure, on udev
     * failure (the allocation is then not freed), or when the renderer
     * constructor fails (the backend is freed but the udev context is not
     * released). Otherwise a fresh, empty, unstarted backend whose
     * renderer came from the requested constructor, or from
     * wlr_renderer_autocreate when none was given.
     */
    static method Create(allocOk: bool, udevOk: bool, requested: Option<RendererFactory>, rendererOk: bool)
      returns (b: Backend?, leak: Leak)
      ensures b != null <==> allocOk && udevOk && rendererOk
      ensures b != null ==> fresh(b) && b.Valid() && b.Running() && leak == NothingLeaked
      ensures b != null ==> b.outputs == [] && b.lastOutputNum == 0 && !b.started
      ensures b != null ==> b.factory == ChosenFactory(requested) && b.configAttribs == CONFIG_ATTRIBS
      ensures b != null ==> b.listening && b.udevHeld && IsFbdevBackend(b.impl)
      ensures b != null ==> b.rendererLive && b.eglLive && b.trace == []
      ensures !allocOk ==> leak == NothingLeaked
      ensures allocOk && !udevOk ==> leak == BackendLeaked
      ensures allocOk && udevOk && !rendererOk ==> leak == UdevLeaked
    {
      if !allocOk {
        return null, NothingLeaked;
      }
      if !udevOk {
        return null, BackendLeaked;
      }
      var f := ChosenFactory(requested);
      if !rendererOk {
        return null, UdevLeaked;
      }
      b := new Backend.Init(f);
      leak := NothingLeaked;
    }

    /**
     * backend_start: arm every output's timer at `1000000 / refresh`,
     * enable it and announce it once more; then mark the backend started.
     */
    method Start() returns (ok: bool)
      requires Valid() && Running()
      modifies this, outputs
      ensures Valid() && Running() && ok && started
      ensures outputs == old(outputs) && lastOutputNum == old(lastOutputNum) && trace == old(trace)
      ensures listening == old(listening) && udevHeld == old(udevHeld)
      ensures rendererLive == old(rendererLive) && eglLive == old(eglLive)
      ensures forall i :: 0 <= i < |outputs| ==>
        outputs[i].announced == old(outputs[i].announced) + 1 &&
        outputs[i].reported == old(outputs[i].reported) &&
        outputs[i].make == old(outputs[i].make) && outputs[i].model == old(outputs[i].model) &&
        outputs[i].frames == old(outputs[i].frames) && outputs[i].presents == old(outputs[i].presents)
      ensures !old(started) ==> forall i :: 0 <= i < |outputs| ==> outputs[i].announced == 1
    {
      var i := 0;
      while i < |outputs|
        invariant 0 <= i <= |outputs|
        invariant unchanged(this)
        invariant forall j :: 0 <= j < i ==>
          Ready(outputs[j], true) && outputs[j].announced == old(outputs[j].announced) + 1 &&
          outputs[j].make == old(outputs[j].make) && outputs[j].model == old(outputs[j].model) &&
          outputs[j].frames == old(outputs[j].frames) && outputs[j].presents == old(outputs[j].presents)
        invariant forall j :: i <= j < |outputs| ==> unchanged(outputs[j])
      {
        var o := outputs[i];
        forall j | 0 <= j < |outputs| && j != i
          ensures outputs[j] != o
        {
          OrderedDistinct(outputs, i, j);
        }
        o.Announce();
        i := i + 1;
      }
      started := true;
      return true;
    }

    /**
     * fbdev_add_output with the error label corrected: a failed probe or a
     * failed make-current drops the half-built output instead of handing it
     * to output_destroy. The counter is bumped only after a successful
     * probe, just before the name is formed. A new output goes to the head
     * of the list; if the backend has started it is armed, enabled and
     * announced at once, otherwise it waits unarmed and disabled.
     */
    method AddOutput(dev: FbDevice, allocOk: bool, makeCurrentOk: bool) returns (r: AddOutcome)
      requires Valid() && Running()
      modifies this
      ensures Valid() && Running()
      ensures started == old(started) && trace == old(trace) && listening == old(listening)
      ensures udevHeld == old(udevHeld) && rendererLive == old(rendererLive) && eglLive == old(eglLive)
      ensures r == AllocFailed <==> !allocOk
      ensures r == ProbeFailed <==> allocOk && DetermineFbInfo(dev).mode.None?
      ensures r == ContextFailed <==> allocOk && DetermineFbInfo(dev).mode.Some? && !makeCurrentOk
      ensures r.Added? <==> allocOk && DetermineFbInfo(dev).mode.Some? && makeCurrentOk
      ensures lastOutputNum == old(lastOutputNum) + (if r.Added? || r == ContextFailed then 1 else 0)
      ensures !r.Added? ==> outputs == old(outputs)
      ensures r.Added? ==> fresh(r.output) && AddedAtHead(r.output, old(outputs), DetermineFbInfo(dev).mode.value)
    {
      if !allocOk {
        return AllocFailed;
      }
      var probe := DetermineFbInfo(dev);
      if probe.mode.None? {
        return ProbeFailed;
      }
      r := AddProbed(probe.mode.value, makeCurrentOk);
    }

    /**
     * fbdev_add_output with its error label as written: a failed probe or
     * make-current jumps to wlr_output_destroy with the half-built output,
     * returned here as `dropped`. That output is not in the list and has
     * no timer, so output_destroy's unlink and timer removal
     * (`DestroyOutput`, which needs its output in the list) cannot apply.
     * A failed probe leaves the zeroed allocation; a failed make-current
     * leaves the named output with its probed mode.
     */
    method AddOutputAsWritten(dev: FbDevice, allocOk: bool, makeCurrentOk: bool) returns (r: AddOutcome, dropped: Option<Output>)
      requires Valid() && Running()
      modifies this
      ensures Valid() && Running()
      ensures started == old(started) && trace == old(trace) && listening == old(listening)
      ensures udevHeld == old(udevHeld) && rendererLive == old(rendererLive) && eglLive == old(eglLive)
      ensures r == AllocFailed <==> !allocOk
      ensures r == ProbeFailed <==> allocOk && DetermineFbInfo(dev).mode.None?
      ensures r == ContextFailed <==> allocOk && DetermineFbInfo(dev).mode.Some? && !makeCurrentOk
      ensures r.Added? <==> allocOk && DetermineFbInfo(dev).mode.Some? && makeCurrentOk
      ensures dropped.Some? <==> r == ProbeFailed || r == ContextFailed
      ensures dropped.Some? ==> fresh(dropped.value) && dropped.value !in outputs && dropped.value.timer == NoTimer
      ensures dropped.Some? ==> IsFbdevOutput(dropped.value.impl)
      ensures r == ContextFailed ==> dropped.value.num == lastOutputNum && dropped.value.Name() == OutputName(lastOutputNum)
      ensures lastOutputNum == old(lastOutputNum) + (if r.Added? || r == ContextFailed then 1 else 0)
      ensures !r.Added? ==> outputs == old(outputs)
      ensures r.Added? ==> fresh(r.output) && AddedAtHead(r.output, old(outputs), DetermineFbInfo(dev).mode.value)
    {
      dropped := None;
      if !allocOk {
        return AllocFailed, None;
      }
      var probe := DetermineFbInfo(dev);
      if probe.mode.None? {
        var o := new Output(0, Mode(0, 0, 0));
        return ProbeFailed, Some(o);
      }
      if !makeCurrentOk {
        lastOutputNum := lastOutputNum + 1;
        var o := NewOutput(lastOutputNum, probe.mode.value);
        return ContextFailed, Some(o);
      }
      r := AddProbed(probe.mode.value, makeCurrentOk);
    }

    /**
     * The rest of fbdev_add_output once the probe has found mode `m`: bump
     * the counter and form the name, make the context current (a failure
     * drops the output), create the timer, link the output at the head and,
     * on a started backend, arm, enable and announce it.
     */
    method AddProbed(m: Mode, makeCurrentOk: bool) returns (r: AddOutcome)
      requires Valid() && Running() && 1 <= m.refresh <= MAX_REFRESH
      modifies this
      ensures Valid() && Running()
      ensures started == old(started) && trace == old(trace) && listening == old(listening)
      ensures udevHeld == old(udevHeld) && rendererLive == old(rendererLive) && eglLive == old(eglLive)
      ensures lastOutputNum == old(lastOutputNum) + 1
      ensures r == ContextFailed <==> !makeCurrentOk
      ensures r.Added? <==> makeCurrentOk
      ensures !r.Added? ==> outputs == old(outputs)
      ensures r.Added? ==> fresh(r.output) && AddedAtHead(r.output, old(outputs), m)
    {
      lastOutputNum := lastOutputNum + 1;
      var o := NewOutput(lastOutputNum, m);
      if !makeCurrentOk {
        return ContextFailed;
      }
      o.timer := Unarmed;
      if started {
        o.Announce();
      }
      ListedAtHead(o, outputs, lastOutputNum);
      ReadyAtHead(o, outputs, started);
      outputs := [o] + outputs;
      return Added(o);
    }

    /**
     * The output that fbdev_add_output added: at the head of the list,
     * named after the incremented counter, showing the probed mode with no
     * frames or presents yet, and announced once exactly when the backend
     * has started.
     */
    ghost predicate AddedAtHead(o: Output, before: seq<Output>, m: Mode)
      reads this, o
    {
      outputs == [o] + before &&
      o.num == lastOutputNum && o.Name() == OutputName(lastOutputNum) &&
      o.make == MAKE && o.model == MAKE &&
      Mode(o.width, o.height, o.refresh) == m && o.reported == m &&
      o.frames == 0 && o.presents == 0 &&
      o.announced == (if started then 1 else 0)
    }

    /**
     * wlr_fbdev_add_outputs: walk the enumerated entries, skipping those
     * without a path or without a devnode, and hand the first usable one
     * to fbdev_add_output, as written; then stop. Nothing is compared with
     * the outputs already present. `dropped` is the half-built output that
     * fbdev_add_output's error label hands to wlr_output_destroy.
     */
    method AddOutputs(entries: seq<UdevEntry>, allocOk: bool, makeCurrentOk: bool)
      returns (r: Option<AddOutcome>, dropped: Option<Output>)
      requires Valid() && Running()
      modifies this
      ensures Valid() && Running()
      ensures started == old(started) && trace == old(trace)
      ensures FirstUsable(entries).None? ==>
        r == None && outputs == old(outputs) && lastOutputNum == old(lastOutputNum)
      ensures FirstUsable(entries).Some? ==> r.Some?
      ensures lastOutputNum == old(lastOutputNum) + (if r.Some? && (r.value.Added? || r.value == ContextFailed) then 1 else 0)
      ensures r.Some? ==> FirstUsable(entries).Some?
      ensures dropped.Some? <==> r == Some(ProbeFailed) || r == Some(ContextFailed)
      ensures dropped.Some? ==> fresh(dropped.value) && dropped.value !in outputs && dropped.value.timer == NoTimer
      ensures r.Some? ==>
        var mode := DetermineFbInfo(Examine(entries[FirstUsable(entries).value]).fb).mode;
        (r.value == AllocFailed <==> !allocOk) &&
        (r.value == ProbeFailed <==> allocOk && mode.None?) &&
        (r.value == ContextFailed <==> allocOk && mode.Some? && !makeCurrentOk) &&
        (r.value.Added? <==> allocOk && mode.Some? && makeCurrentOk) &&
        (r.value.Added? ==> fresh(r.value.output) && AddedAtHead(r.value.output, old(outputs), mode.value)) &&
        (!r.value.Added? ==> outputs == old(outputs))
    {
      var k := FindUsable(entries);
      if k.None? {
        return None, None;
      }
      var outcome, half := AddOutputAsWritten(ExamineAsWritten(entries[k.value]).fb, allocOk, makeCurrentOk);
      return Some(outcome), half;
    }

    /**
     * output_destroy for an output in the list: unlink it, remove its
     * timer and destroy the EGL surface. The remaining outputs keep their
     * order.
     */
    method DestroyOutput(o: Output)
      requires Valid() && o in outputs
      modifies this, o
      ensures Valid()
      ensures o !in outputs
      ensures outputs == old(outputs)[..IndexOf(old(outputs), o)] + old(outputs)[IndexOf(old(outputs), o) + 1..]
      ensures old(outputs)[0] == o ==> outputs == old(outputs)[1..]
      ensures o.timer == NoTimer
      ensures trace == old(trace) + OutputTeardown(o.num)
      ensures started == old(started) && lastOutputNum == old(lastOutputNum) && listening == old(listening)
      ensures udevHeld == old(udevHeld) && rendererLive == old(rendererLive) && eglLive == old(eglLive)
    {
      var i := IndexOf(outputs, o);
      forall j | 0 <= j < |outputs| && j != i
        ensures outputs[j] != o
      {
        OrderedDistinct(outputs, i, j);
      }
      OrderedRemove(outputs, i);
      ghost var before := outputs;
      outputs := outputs[..i] + outputs[i + 1..];
      assert o !in outputs;
      o.timer := NoTimer;
      trace := trace + OutputTeardown(o.num);
      assert outputs == before[..i] + before[i + 1..];
      assert forall j :: 0 <= j < |outputs| ==> outputs[j] == before[if j < i then j else j + 1];
    }

    /**
     * backend_destroy: deregister the display listener, destroy the
     * outputs from the head of the list until it is empty, emit the
     * destroy signal, then destroy the renderer and after it finish EGL.
     */
    method Destroy()
      requires Valid()
      modifies this, outputs
      ensures freed && outputs == [] && !listening && !rendererLive && !eglLive
      ensures trace == old(trace) + TeardownAll(Nums(old(outputs))) + [DestroySignal, RendererDestroyed, EglFinished]
      ensures forall o :: o in old(outputs) ==> o.timer == NoTimer
      ensures udevHeld == old(udevHeld)
    {
      listening := false;
      DestroyOutputs();
      rendererLive := false;
      eglLive := false;
      trace := trace + [DestroySignal, RendererDestroyed, EglFinished];
      freed := true;
    }

    /**
     * The safe walk in backend_destroy: destroy the output at the head of
     * the list until none is left, so outputs go newest first.
     */
    method DestroyOutputs()
      requires Valid()
      modifies this, outputs
      ensures Valid() && outputs == []
      ensures trace == old(trace) + TeardownAll(Nums(old(outputs)))
      ensures forall o :: o in old(outputs) ==> o.timer == NoTimer
      ensures listening == old(listening) && udevHeld == old(udevHeld)
      ensures rendererLive == old(rendererLive) && eglLive == old(eglLive)
    {
      ghost var all := outputs;
      ghost var k := 0;
      while outputs != []
        invariant Valid() && listening == old(listening) && udevHeld == old(udevHeld)
        invariant rendererLive == old(rendererLive) && eglLive == old(eglLive)
        invariant all == old(outputs) && 0 <= k <= |all| && outputs == all[k..] && OrderedNums(all)
        invariant forall j :: 0 <= j < k ==> all[j].timer == NoTimer
        invariant trace == old(trace) + TeardownAll(Nums(all[..k]))
        decreases |outputs|
      {
        var o := outputs[0];
        assert o == all[k];
        forall j | 0 <= j < k
          ensures all[j] != o
        {
          OrderedDistinct(all, j, k);
        }
        DestroyOutput(o);
        TeardownStep(all, k);
        k := k + 1;
      }
      assert all[..k] == all;
    }

    /** handle_display_destroy: release the udev context, then destroy the backend. */
    method HandleDisplayDestroy()
      requires Valid()
      modifies this, outputs
      ensures freed && outputs == [] && !udevHeld && !listening
      ensures trace == old(trace) + [UdevReleased] + TeardownAll(Nums(old(outputs))) +
        [DestroySignal, RendererDestroyed, EglFinished]
    {
      udevHeld := false;
      trace := trace + [UdevReleased];
      Destroy();
    }
  }

  lemma {:induction false} FirstUsableIs(entries: seq<UdevEntry>, i: nat)
    requires i < |entries| && Examine(entries[i]).UseDevice?
    requires forall j :: 0 <= j < i ==> !Examine(entries[j]).UseDevice?
    ensures FirstUsable(entries) == Some(i)
  {
    if i > 0 {
      assert !Examine(entries[0]).UseDevice?;
      var rest := entries[1..];
      assert forall j :: 0 <= j < i - 1 ==> rest[j] == entries[j + 1];
      FirstUsableIs(rest, i - 1);
    }
  }

  /**
   * Two discovery passes over the same framebuffer add it twice, under
   * two different names.
   */
  method AddOutputsTwice(b: Backend, entries: seq<UdevEntry>)
    requires b.Valid() && b.Running() && b.lastOutputNum + 2 < Pow10(17)
    requires FirstUsable(entries).Some?
    requires DetermineFbInfo(Examine(entries[FirstUsable(entries).value]).fb).mode.Some?
    modifies b
    ensures b.Valid() && b.Running() && |b.outputs| == |old(b.outputs)| + 2
    ensures b.outputs[0].Name() != b.outputs[1].Name()
    ensures Mode(b.outputs[0].width, b.outputs[0].height, b.outputs[0].refresh) ==
            Mode(b.outputs[1].width, b.outputs[1].height, b.outputs[1].refresh)
  {
    var first, _ := b.AddOutputs(entries, true, true);
    ghost var o1 := first.value.output;
    ghost var between := b.outputs;
    var second, _ := b.AddOutputs(entries, true, true);
    ghost var o2 := second.value.output;
    assert b.outputs == [o2] + between && between == [o1] + old(b.outputs);
    assert b.outputs[0] == o2 && b.outputs[1] == o1;
    OutputNamesDistinct(o2.num, o1.num);
  }
}
