/**
  The OBS source (src/lib.rs): three `ConfigWatcher`s, the settings handler
  that retargets them, and the per-frame loop that drains them and reloads
  the splits, the auto-splitter script and the layout.

  Everything outside the plugin is an oracle: the files on disk and the
  outcomes of the timer's `replace_run` and of the auto-splitter runtime's
  `unload_script_blocking` / `load_script_blocking` are given by an `Env`,
  and the outcomes of the watcher's `unwatch` / `watch` calls by `Backends`.
 */
module Plugin {
  import opened Wrappers
  import opened Paths
  import opened Config

  newtype u32 = x: int | 0 <= x < 0x1_0000_0000

  newtype i32 = x: int | -0x8000_0000 <= x < 0x8000_0000

  /** The three file settings, and the three watchers named after them. */
  datatype Slot = SplitsSlot | AutosplitterSlot | LayoutSlot

  /** A call made to the auto-splitter runtime, with whether it succeeded. */
  datatype ScriptCall = Unload(ok: bool) | Load(path: Path, ok: bool)

  /** What the plugin logs about a reload or a retarget. */
  datatype Note =
    | SplitsUpdated
    | SplitsReplaceFailed
    | SplitsReadFailed
    | AutosplitterLoaded
    | AutosplitterLoadFailed
    | LayoutUpdated
    | LayoutReadFailed
    | RetargetFailed(slot: Slot, error: WatchError)

  /**
    The state the reloads act on: the timer's active run, the layout, the
    calls made so far to the auto-splitter runtime, and the log.
   */
  datatype Domain = Domain(
    run: Run,
    layout: Layout,
    scriptCalls: seq<ScriptCall>,
    log: seq<Note>)

  /** A graphics texture; `serial` tells textures of equal size apart. */
  datatype Texture = Texture(width: u32, height: u32, serial: nat)

  datatype Source = Source(
    domain: Domain,
    width: u32,
    height: u32,
    image: Texture,
    splitsWatcher: Watcher,
    layoutWatcher: Watcher,
    splitterWatcher: Watcher)

  /**
    The outside world during one call: the splits and layout files on disk,
    the scripts the runtime can load, whether the timer accepts a new run and
    whether unloading the current script succeeds.
   */
  datatype Env = Env(
    runs: RunFiles,
    layouts: LayoutFiles,
    loadable: set<Path>,
    replaceOk: bool,
    unloadOk: bool)

  /** The settings OBS hands over: a missing entry is `None`. */
  datatype Settings = Settings(
    width: Option<u32>,
    height: Option<u32>,
    splits: Option<Path>,
    autosplitter: Option<Path>,
    layout: Option<Path>)

  /** Outcomes of the watcher calls made for each of the three file settings. */
  datatype Backends = Backends(splits: Backend, autosplitter: Backend, layout: Backend)

  datatype Drained = Drained(watcher: Watcher, domain: Domain)

  // ---------------------------------------------------------------------------
  // Reloads
  // ---------------------------------------------------------------------------

  /** The domain only gained one log entry. */
  predicate Logged(d: Domain, r: Domain) {
    |r.log| == |d.log| + 1 && r.log[..|d.log|] == d.log
  }

  /** `update_splits`: replace the active run with the parsed one, if any and if the timer accepts it. */
  function UpdateSplits(d: Domain, p: Path, env: Env): (r: Domain)
    ensures r.layout == d.layout && r.scriptCalls == d.scriptCalls
    ensures Logged(d, r)
    ensures r.log[|d.log|] == SplitsUpdated <==> ParseRun(p, env.runs).Some? && env.replaceOk
    ensures r.log[|d.log|] == SplitsUpdated ==> r.run == ParseRun(p, env.runs).value
    ensures r.log[|d.log|] != SplitsUpdated ==> r.run == d.run
  {
    match ParseRun(p, env.runs)
    case None => d.(log := d.log + [SplitsReadFailed])
    case Some(run) =>
      if env.replaceOk then d.(run := run, log := d.log + [SplitsUpdated])
      else d.(log := d.log + [SplitsReplaceFailed])
  }

  /** `update_autosplitter`: unload the script, ignoring errors, then load the one at `p`. */
  function UpdateAutosplitter(d: Domain, p: Path, env: Env): (r: Domain)
    ensures r.run == d.run && r.layout == d.layout
    ensures Logged(d, r)
    ensures |r.scriptCalls| == |d.scriptCalls| + 2 && r.scriptCalls[..|d.scriptCalls|] == d.scriptCalls
    ensures r.scriptCalls[|d.scriptCalls|].Unload?
    ensures r.scriptCalls[|d.scriptCalls| + 1] == Load(p, p in env.loadable)
    ensures r.log[|d.log|] == AutosplitterLoaded <==> r.scriptCalls[|d.scriptCalls| + 1].ok
  {
    var unloaded := d.scriptCalls + [Unload(env.unloadOk)];
    if p in env.loadable then
      d.(scriptCalls := unloaded + [Load(p, true)], log := d.log + [AutosplitterLoaded])
    else
      d.(scriptCalls := unloaded + [Load(p, false)], log := d.log + [AutosplitterLoadFailed])
  }

  /** `update_layout`: replace the layout with the parsed one, if any. */
  function UpdateLayout(d: Domain, p: Path, env: Env): (r: Domain)
    ensures r.run == d.run && r.scriptCalls == d.scriptCalls
    ensures Logged(d, r)
    ensures r.log[|d.log|] == LayoutUpdated <==> ParseLayout(p, env.layouts).Some?
    ensures r.log[|d.log|] == LayoutUpdated ==> r.layout == ParseLayout(p, env.layouts).value
    ensures r.log[|d.log|] != LayoutUpdated ==> r.layout == d.layout
  {
    match ParseLayout(p, env.layouts)
    case None => d.(log := d.log + [LayoutReadFailed])
    case Some(layout) => d.(layout := layout, log := d.log + [LayoutUpdated])
  }

  /** The reload that belongs to a slot. */
  function Reload(d: Domain, slot: Slot, p: Path, env: Env): Domain {
    match slot
    case SplitsSlot => UpdateSplits(d, p, env)
    case AutosplitterSlot => UpdateAutosplitter(d, p, env)
    case LayoutSlot => UpdateLayout(d, p, env)
  }

  /** `n` reloads of the same slot and path, one after the other. */
  function ReloadTimes(d: Domain, slot: Slot, p: Path, n: nat, env: Env): Domain
    decreases n
  {
    if n == 0 then d else ReloadTimes(Reload(d, slot, p, env), slot, p, n - 1, env)
  }

  // ---------------------------------------------------------------------------
  // The per-frame drain loop
  // ---------------------------------------------------------------------------

  /**
    One `while let Some(p) = watcher.check_events()` loop of `video_render`:
    reload for every reported path until the watcher reports nothing.
   */
  function Drain(w: Watcher, d: Domain, slot: Slot, env: Env): (r: Drained)
    decreases |w.queue|
    ensures r.watcher == w.(queue := [])
    ensures CheckEvents(r.watcher).found.None?
  {
    var poll := CheckEvents(w);
    match poll.found
    case None => Drained(poll.watcher, d)
    case Some(p) => Drain(poll.watcher, Reload(d, slot, p, env), slot, env)
  }

  /**
    The same loop written as `video_render` writes it: poll, reload, repeat
    until the watcher reports nothing.
   */
  method DrainLoop(w: Watcher, d: Domain, slot: Slot, env: Env) returns (watcher: Watcher, domain: Domain)
    ensures Drained(watcher, domain) == Drain(w, d, slot, env)
  {
    watcher, domain := w, d;
    while true
      invariant Drain(watcher, domain, slot, env) == Drain(w, d, slot, env)
      decreases |watcher.queue|
    {
      var poll := CheckEvents(watcher);
      watcher := poll.watcher;
      if poll.found.None? {
        return;
      }
      domain := Reload(domain, slot, poll.found.value, env);
    }
  }

  /**
    The reconciliation part of `video_render`: drain the splits watcher, then
    the auto-splitter watcher, then the layout watcher. Rendering itself is
    not modelled.
   */
  function VideoRender(s: Source, env: Env): (r: Source)
    ensures r.width == s.width && r.height == s.height && r.image == s.image
    ensures r.splitsWatcher == s.splitsWatcher.(queue := [])
    ensures r.splitterWatcher == s.splitterWatcher.(queue := [])
    ensures r.layoutWatcher == s.layoutWatcher.(queue := [])
  {
    var splits := Drain(s.splitsWatcher, s.domain, SplitsSlot, env);
    var splitter := Drain(s.splitterWatcher, splits.domain, AutosplitterSlot, env);
    var layout := Drain(s.layoutWatcher, splitter.domain, LayoutSlot, env);
    s.(domain := layout.domain,
       splitsWatcher := splits.watcher,
       splitterWatcher := splitter.watcher,
       layoutWatcher := layout.watcher)
  }

  // ---------------------------------------------------------------------------
  // Settings
  // ---------------------------------------------------------------------------

  /** The watcher named after a slot. */
  function WatcherOf(s: Source, slot: Slot): Watcher {
    match slot
    case SplitsSlot => s.splitsWatcher
    case AutosplitterSlot => s.splitterWatcher
    case LayoutSlot => s.layoutWatcher
  }

  /** Replace the watcher named after a slot. */
  function WithWatcher(s: Source, slot: Slot, w: Watcher): (r: Source)
    ensures r.domain == s.domain && r.width == s.width && r.height == s.height && r.image == s.image
    ensures forall other :: WatcherOf(r, other) == if other == slot then w else WatcherOf(s, other)
  {
    match slot
    case SplitsSlot => s.(splitsWatcher := w)
    case AutosplitterSlot => s.(splitterWatcher := w)
    case LayoutSlot => s.(layoutWatcher := w)
  }

  /**
    The watcher a file setting calls `change_file` on. The auto-splitter
    setting retargets the layout watcher, though it is compared with the
    auto-splitter watcher's path (src/lib.rs:101-102).
   */
  function RetargetedBy(slot: Slot): (target: Slot)
    ensures target != AutosplitterSlot
    ensures slot != AutosplitterSlot ==> target == slot
    ensures slot == AutosplitterSlot ==> target == LayoutSlot
  {
    match slot
    case SplitsSlot => SplitsSlot
    case AutosplitterSlot => LayoutSlot
    case LayoutSlot => LayoutSlot
  }

  /**
    One file setting of `update_settings`: when present and different from
    the path of the watcher named after the slot, retarget a watcher and
    reload only if that succeeded; on failure only log it.
   */
  function Retarget(s: Source, slot: Slot, setting: Option<Path>, backend: Backend, env: Env): (r: Source)
    ensures r.width == s.width && r.height == s.height && r.image == s.image
    ensures setting.None? || WatcherOf(s, slot).path == setting ==> r == s
    ensures setting.Some? && WatcherOf(s, slot).path != setting ==>
              var change := ChangeFile(WatcherOf(s, RetargetedBy(slot)), setting.value, backend);
              && WatcherOf(r, RetargetedBy(slot)) == change.watcher
              && (forall other | other != RetargetedBy(slot) :: WatcherOf(r, other) == WatcherOf(s, other))
              && r.domain == match change.status
                             case Ok => Reload(s.domain, slot, setting.value, env)
                             case Err(e) => s.domain.(log := s.domain.log + [RetargetFailed(slot, e)])
  {
    match setting
    case None => s
    case Some(p) =>
      if WatcherOf(s, slot).path == Some(p) then s
      else
        var target := RetargetedBy(slot);
        var change := ChangeFile(WatcherOf(s, target), p, backend);
        var moved := WithWatcher(s, target, change.watcher);
        match change.status
        case Ok => moved.(domain := Reload(s.domain, slot, p, env))
        case Err(e) => moved.(domain := s.domain.(log := s.domain.log + [RetargetFailed(slot, e)]))
  }

  /**
    The width and height part of `update_settings`: both must be present, and
    the texture is recreated only when one of them differs.
   */
  function ApplyDimensions(s: Source, width: Option<u32>, height: Option<u32>): (r: Source)
    ensures r.domain == s.domain
    ensures r.splitsWatcher == s.splitsWatcher && r.splitterWatcher == s.splitterWatcher
    ensures r.layoutWatcher == s.layoutWatcher
    ensures r.image != s.image <==>
              width.Some? && height.Some? && (width.value != s.width || height.value != s.height)
    ensures r.image != s.image ==>
              r.width == width.value && r.height == height.value
              && r.image == Texture(width.value, height.value, s.image.serial + 1)
    ensures r.image == s.image ==> r.width == s.width && r.height == s.height
  {
    if width.Some? && height.Some? && (width.value != s.width || height.value != s.height) then
      s.(width := width.value, height := height.value,
         image := Texture(width.value, height.value, s.image.serial + 1))
    else s
  }

  /** `update_settings`: dimensions, then splits, then auto-splitter, then layout. */
  function UpdateSettings(s: Source, settings: Settings, backends: Backends, env: Env): (r: Source)
    ensures r.splitterWatcher == s.splitterWatcher
    ensures r.splitsWatcher.queue == s.splitsWatcher.queue
    ensures r.layoutWatcher.queue == s.layoutWatcher.queue
  {
    var sized := ApplyDimensions(s, settings.width, settings.height);
    var splits := Retarget(sized, SplitsSlot, settings.splits, backends.splits, env);
    var splitter := Retarget(splits, AutosplitterSlot, settings.autosplitter, backends.autosplitter, env);
    Retarget(splitter, LayoutSlot, settings.layout, backends.layout, env)
  }

  /**
    `Source::create`: default run, default layout, three default watchers,
    a texture of the configured size; then the settings are applied. The
    width and height are unwrapped, so both must be present.
   */
  function CreateSource(settings: Settings, backends: Backends, env: Env): (s: Source)
    requires settings.width.Some? && settings.height.Some?
    ensures s.width == settings.width.value && s.height == settings.height.value
    ensures s.image == Texture(s.width, s.height, 0)
    ensures s.splitterWatcher == Default()
    ensures s.splitsWatcher.queue == [] && s.layoutWatcher.queue == []
    ensures s.splitsWatcher.delayMs == 200 && s.layoutWatcher.delayMs == 200
  {
    var w := settings.width.value;
    var h := settings.height.value;
    var initial := Source(
      Domain(DefaultRun(), DefaultLayout, [], []),
      w, h, Texture(w, h, 0),
      Default(), Default(), Default());
    UpdateSettings(initial, settings, backends, env)
  }

  // ---------------------------------------------------------------------------
  // Mouse wheel
  // ---------------------------------------------------------------------------

  /** `mouse_wheel`: a negative delta scrolls the layout down, a positive one up. */
  function MouseWheel(s: Source, ydelta: i32): (r: Source)
    ensures r == s.(domain := r.domain) && r.domain == s.domain.(layout := r.domain.layout)
    ensures r.domain.layout.id == s.domain.layout.id
    ensures ydelta == 0 ==> r == s
    ensures ydelta < 0 ==> r.domain.layout.scrolls == s.domain.layout.scrolls + [Down]
    ensures ydelta > 0 ==> r.domain.layout.scrolls == s.domain.layout.scrolls + [Up]
  {
    var layout := s.domain.layout;
    if ydelta < 0 then s.(domain := s.domain.(layout := layout.(scrolls := layout.scrolls + [Down])))
    else if ydelta > 0 then s.(domain := s.domain.(layout := layout.(scrolls := layout.scrolls + [Up])))
    else s
  }

  // ---------------------------------------------------------------------------
  // A session: what OBS and the file system do to a source over time
  // ---------------------------------------------------------------------------

  datatype Action =
    | Configure(settings: Settings, backends: Backends, env: Env)
    | Render(env: Env)
    | Wheel(ydelta: i32)
    | Deliver(slot: Slot, events: seq<Event>)

  /**
    One callback of OBS (`update`, `video_render`, `mouse_wheel`), or the
    watcher's background thread sending debounced events down a channel.
   */
  function Step(s: Source, a: Action): (r: Source)
    ensures a.Configure? ==> r == UpdateSettings(s, a.settings, a.backends, a.env)
    ensures r.splitterWatcher.path == s.splitterWatcher.path
    ensures r.splitterWatcher.watched == s.splitterWatcher.watched
    ensures !a.Configure? ==>
              forall slot :: WatcherOf(r, slot).path == WatcherOf(s, slot).path
                             && WatcherOf(r, slot).watched == WatcherOf(s, slot).watched
    ensures a.Render? ==> forall slot :: WatcherOf(r, slot).queue == []
    ensures a.Wheel? ==> forall slot :: WatcherOf(r, slot) == WatcherOf(s, slot)
    ensures a.Deliver? ==>
              && r.domain == s.domain && r.width == s.width && r.height == s.height && r.image == s.image
              && WatcherOf(r, a.slot).queue == WatcherOf(s, a.slot).queue + a.events
              && WatcherOf(r, a.slot).delayMs == WatcherOf(s, a.slot).delayMs
              && forall other | other != a.slot :: WatcherOf(r, other) == WatcherOf(s, other)
  {
    match a
    case Configure(settings, backends, env) => UpdateSettings(s, settings, backends, env)
    case Render(env) =>
      var r := VideoRender(s, env);
      assert forall slot :: WatcherOf(r, slot) == WatcherOf(s, slot).(queue := []);
      r
    case Wheel(ydelta) =>
      var r := MouseWheel(s, ydelta);
      assert forall slot :: WatcherOf(r, slot) == WatcherOf(s, slot);
      r
    case Deliver(slot, events) =>
      WithWatcher(s, slot, WatcherOf(s, slot).(queue := WatcherOf(s, slot).queue + events))
  }

  function Replay(s: Source, actions: seq<Action>): Source
    decreases |actions|
  {
    if |actions| == 0 then s else Replay(Step(s, actions[0]), actions[1..])
  }
}
