/**
  Properties of the plugin over whole frames and whole sessions: how many
  reloads a frame performs and in which order, the slot invariant of every
  watcher, and the consequences of the auto-splitter setting retargeting the
  layout watcher.
 */
module PluginProofs {
  import opened Wrappers
  import opened Paths
  import opened Config
  import opened Plugin

  /** The reloads a watcher's pending events call for: one per relevant event. */
  function Pending(w: Watcher, d: Domain, slot: Slot, env: Env): Domain {
    if w.path.None? then d else ReloadTimes(d, slot, w.path.value, MatchCount(w.queue, w.path), env)
  }

  /** One turn of a drain loop: the reported path is reloaded and the rest is drained. */
  lemma DrainUnfolds(w: Watcher, d: Domain, slot: Slot, env: Env)
    requires CheckEvents(w).found.Some?
    ensures Drain(w, d, slot, env) ==
            Drain(CheckEvents(w).watcher, Reload(d, slot, CheckEvents(w).found.value, env), slot, env)
  {
  }

  /** The first of `n` reloads, taken off the front. */
  lemma ReloadTimesUnfolds(d: Domain, slot: Slot, p: Path, n: nat, env: Env)
    requires n > 0
    ensures ReloadTimes(d, slot, p, n, env) == ReloadTimes(Reload(d, slot, p, env), slot, p, n - 1, env)
  {
  }

  /** A drain loop reloads once per relevant event in the queue, and never otherwise. */
  lemma {:induction false} DrainReloadsOncePerMatch(w: Watcher, d: Domain, slot: Slot, env: Env)
    decreases |w.queue|
    ensures Drain(w, d, slot, env).domain == Pending(w, d, slot, env)
  {
    var poll := CheckEvents(w);
    CheckEventsConsumesOneMatch(w);
    if poll.found.None? {
      assert MatchCount(w.queue, w.path) == 0;
    } else {
      // one relevant event consumed, the rest drained by the recursive loop
      var p := poll.found.value;
      var n := MatchCount(w.queue, w.path);
      var rest := poll.watcher;
      var reloaded := Reload(d, slot, p, env);
      assert rest.path == w.path == Some(p);
      assert n == MatchCount(rest.queue, w.path) + 1;
      DrainUnfolds(w, d, slot, env);
      DrainReloadsOncePerMatch(rest, reloaded, slot, env);
      ReloadTimesUnfolds(d, slot, p, n, env);
    }
  }

  /** A watcher without a path never causes a reload, whatever is queued. */
  lemma DrainWithoutPathKeepsDomain(w: Watcher, d: Domain, slot: Slot, env: Env)
    requires w.path.None?
    ensures Drain(w, d, slot, env).domain == d
  {
    DrainReloadsOncePerMatch(w, d, slot, env);
  }

  /**
    A frame performs the splits reloads, then the auto-splitter reloads, then
    the layout reloads, one per relevant event queued for each watcher.
   */
  lemma FrameReloadsInOrder(s: Source, env: Env)
    ensures VideoRender(s, env).domain ==
            Pending(s.layoutWatcher,
              Pending(s.splitterWatcher,
                Pending(s.splitsWatcher, s.domain, SplitsSlot, env),
                AutosplitterSlot, env),
              LayoutSlot, env)
  {
    var splits := Drain(s.splitsWatcher, s.domain, SplitsSlot, env);
    var splitter := Drain(s.splitterWatcher, splits.domain, AutosplitterSlot, env);
    DrainReloadsOncePerMatch(s.splitsWatcher, s.domain, SplitsSlot, env);
    DrainReloadsOncePerMatch(s.splitterWatcher, splits.domain, AutosplitterSlot, env);
    DrainReloadsOncePerMatch(s.layoutWatcher, splitter.domain, LayoutSlot, env);
  }

  /** After a frame no watcher has anything left to report. */
  lemma FrameLeavesNothingToReport(s: Source, env: Env)
    ensures var r := VideoRender(s, env);
            forall slot :: CheckEvents(WatcherOf(r, slot)).found.None? && WatcherOf(r, slot).queue == []
  {
    var r := VideoRender(s, env);
    forall slot
      ensures CheckEvents(WatcherOf(r, slot)).found.None?
    {
      CheckEventsWithoutMatch(WatcherOf(r, slot));
    }
  }

  /** Splits and layout reloads never touch the auto-splitter runtime. */
  lemma {:induction false} ReloadTimesKeepsScript(d: Domain, slot: Slot, p: Path, n: nat, env: Env)
    requires slot != AutosplitterSlot
    decreases n
    ensures ReloadTimes(d, slot, p, n, env).scriptCalls == d.scriptCalls
  {
    if n > 0 {
      ReloadTimesKeepsScript(Reload(d, slot, p, env), slot, p, n - 1, env);
    }
  }

  /**
    While the auto-splitter watcher has no path, a frame makes no call to the
    auto-splitter runtime, however the script file changes.
   */
  lemma FrameNeverReloadsScript(s: Source, env: Env)
    requires s.splitterWatcher.path.None?
    ensures VideoRender(s, env).domain.scriptCalls == s.domain.scriptCalls
  {
    FrameReloadsInOrder(s, env);
    var splits := Pending(s.splitsWatcher, s.domain, SplitsSlot, env);
    var splitter := Pending(s.splitterWatcher, splits, AutosplitterSlot, env);
    if s.splitsWatcher.path.Some? {
      ReloadTimesKeepsScript(s.domain, SplitsSlot, s.splitsWatcher.path.value,
                             MatchCount(s.splitsWatcher.queue, s.splitsWatcher.path), env);
    }
    if s.layoutWatcher.path.Some? {
      ReloadTimesKeepsScript(splitter, LayoutSlot, s.layoutWatcher.path.value,
                             MatchCount(s.layoutWatcher.queue, s.layoutWatcher.path), env);
    }
  }

  /** No step of a session assigns the auto-splitter watcher's path or watched directories. */
  lemma {:induction false} ReplayKeepsSplitterWatch(s: Source, actions: seq<Action>)
    decreases |actions|
    ensures Replay(s, actions).splitterWatcher.path == s.splitterWatcher.path
    ensures Replay(s, actions).splitterWatcher.watched == s.splitterWatcher.watched
  {
    if |actions| > 0 {
      ReplayKeepsSplitterWatch(Step(s, actions[0]), actions[1..]);
    }
  }

  /**
    In every session of a created source the auto-splitter watcher watches
    nothing and has no path, so a frame never reloads the script.
   */
  lemma SplitterNeverRetargeted(settings: Settings, backends: Backends, env: Env, actions: seq<Action>, frame: Env)
    requires settings.width.Some? && settings.height.Some?
    ensures var s := Replay(CreateSource(settings, backends, env), actions);
            && s.splitterWatcher.path.None?
            && s.splitterWatcher.watched == {}
            && VideoRender(s, frame).domain.scriptCalls == s.domain.scriptCalls
  {
    var s := Replay(CreateSource(settings, backends, env), actions);
    ReplayKeepsSplitterWatch(CreateSource(settings, backends, env), actions);
    FrameNeverReloadsScript(s, frame);
  }

  /** Every watcher of the source keeps the slot invariant. */
  predicate AllSlotsWatchAtMostParent(s: Source) {
    forall slot :: WatchesAtMostParent(WatcherOf(s, slot))
  }

  /** A file setting keeps the slot invariant of every watcher. */
  lemma RetargetKeepsInvariant(s: Source, slot: Slot, setting: Option<Path>, backend: Backend, env: Env)
    requires AllSlotsWatchAtMostParent(s)
    ensures AllSlotsWatchAtMostParent(Retarget(s, slot, setting, backend, env))
  {
    if setting.Some? && WatcherOf(s, slot).path != setting {
      ChangeFileKeepsInvariant(WatcherOf(s, RetargetedBy(slot)), setting.value, backend);
    }
  }

  /** `update_settings` keeps the slot invariant of every watcher. */
  lemma UpdateSettingsKeepsInvariant(s: Source, settings: Settings, backends: Backends, env: Env)
    requires AllSlotsWatchAtMostParent(s)
    ensures AllSlotsWatchAtMostParent(UpdateSettings(s, settings, backends, env))
  {
    var sized := ApplyDimensions(s, settings.width, settings.height);
    assert forall slot :: WatcherOf(sized, slot) == WatcherOf(s, slot);
    var splits := Retarget(sized, SplitsSlot, settings.splits, backends.splits, env);
    var splitter := Retarget(splits, AutosplitterSlot, settings.autosplitter, backends.autosplitter, env);
    RetargetKeepsInvariant(sized, SplitsSlot, settings.splits, backends.splits, env);
    RetargetKeepsInvariant(splits, AutosplitterSlot, settings.autosplitter, backends.autosplitter, env);
    RetargetKeepsInvariant(splitter, LayoutSlot, settings.layout, backends.layout, env);
  }

  /** Every step of a session keeps the slot invariant of every watcher. */
  lemma StepKeepsInvariant(s: Source, a: Action)
    requires AllSlotsWatchAtMostParent(s)
    ensures AllSlotsWatchAtMostParent(Step(s, a))
  {
    match a
    case Configure(settings, backends, env) =>
      UpdateSettingsKeepsInvariant(s, settings, backends, env);
    case Render(env) =>
      var r := VideoRender(s, env);
      assert forall slot :: WatcherOf(r, slot) == WatcherOf(s, slot).(queue := []);
    case Wheel(ydelta) =>
      var r := MouseWheel(s, ydelta);
      assert forall slot :: WatcherOf(r, slot) == WatcherOf(s, slot);
    case Deliver(slot, events) =>
      var r := Step(s, a);
      assert forall other :: WatcherOf(r, other).path == WatcherOf(s, other).path
                             && WatcherOf(r, other).watched == WatcherOf(s, other).watched;
  }

  /**
    In every session of a created source, each watcher watches at most one
    directory, the parent of its path.
   */
  lemma {:induction false} SessionKeepsInvariant(s: Source, actions: seq<Action>)
    requires AllSlotsWatchAtMostParent(s)
    decreases |actions|
    ensures AllSlotsWatchAtMostParent(Replay(s, actions))
  {
    if |actions| > 0 {
      StepKeepsInvariant(s, actions[0]);
      SessionKeepsInvariant(Step(s, actions[0]), actions[1..]);
    }
  }

  /** A created source satisfies the slot invariant from the start. */
  lemma CreateSourceKeepsInvariant(settings: Settings, backends: Backends, env: Env)
    requires settings.width.Some? && settings.height.Some?
    ensures AllSlotsWatchAtMostParent(CreateSource(settings, backends, env))
  {
    var w := settings.width.value;
    var h := settings.height.value;
    var initial := Source(
      Domain(DefaultRun(), DefaultLayout, [], []),
      w, h, Texture(w, h, 0),
      Default(), Default(), Default());
    assert AllSlotsWatchAtMostParent(initial);
    UpdateSettingsKeepsInvariant(initial, settings, backends, env);
  }

  /**
    Re-applying an unchanged splits setting is a no-op for the splits
    watcher and the active run.
   */
  lemma UnchangedSplitsSettingIsIgnored(s: Source, settings: Settings, backends: Backends, env: Env)
    requires settings.splits.None? || settings.splits == s.splitsWatcher.path
    ensures UpdateSettings(s, settings, backends, env).splitsWatcher == s.splitsWatcher
    ensures UpdateSettings(s, settings, backends, env).domain.run == s.domain.run
  {
    var sized := ApplyDimensions(s, settings.width, settings.height);
    var splits := Retarget(sized, SplitsSlot, settings.splits, backends.splits, env);
    var splitter := Retarget(splits, AutosplitterSlot, settings.autosplitter, backends.autosplitter, env);
    assert splits == sized;
  }

  /** The splits setting never touches the other two watchers or the auto-splitter runtime. */
  lemma SplitsSettingKeepsOtherSlots(s: Source, setting: Option<Path>, backend: Backend, env: Env)
    ensures var r := Retarget(s, SplitsSlot, setting, backend, env);
            && r.splitterWatcher == s.splitterWatcher && r.layoutWatcher == s.layoutWatcher
            && r.domain.scriptCalls == s.domain.scriptCalls && r.domain.layout == s.domain.layout
  {
  }

  /**
    The auto-splitter setting, applied while the auto-splitter watcher has no
    path, moves the layout watcher to the script's path and reloads the script.
   */
  lemma ScriptSettingMovesLayoutWatcher(s: Source, script: Path, layout: Path, backend: Backend, env: Env)
    requires s.splitterWatcher.path.None? && s.layoutWatcher.path == Some(layout)
    requires script != layout && Parent(script).Some? && Parent(layout).Some?
    requires backend == Backend(true, true)
    ensures var r := Retarget(s, AutosplitterSlot, Some(script), backend, env);
            && r.layoutWatcher.path == Some(script)
            && Parent(r.layoutWatcher.path.value).Some?
            && r.domain == UpdateAutosplitter(s.domain, script, env)
  {
    var change := ChangeFile(s.layoutWatcher, script, backend);
    assert change.status == Ok && change.watcher.path == Some(script);
  }

  /**
    The layout setting, applied while the layout watcher is on another path
    with a parent, moves it to the layout path and reloads the layout.
   */
  lemma LayoutSettingMovesLayoutWatcher(s: Source, layout: Path, backend: Backend, env: Env)
    requires s.layoutWatcher.path.Some? && s.layoutWatcher.path != Some(layout)
    requires Parent(s.layoutWatcher.path.value).Some? && Parent(layout).Some?
    requires backend == Backend(true, true)
    ensures var r := Retarget(s, LayoutSlot, Some(layout), backend, env);
            && r.layoutWatcher.path == Some(layout)
            && r.domain == UpdateLayout(s.domain, layout, env)
  {
    var change := ChangeFile(s.layoutWatcher, layout, backend);
    assert change.status == Ok && change.watcher.path == Some(layout);
  }

  /**
    Because the auto-splitter watcher never gets a path, re-applying the
    same auto-splitter and layout settings moves the layout watcher to the
    script's path and back, unloads and loads the script again and reloads
    the layout, even when nothing changed.
   */
  lemma UnchangedSettingsReloadScriptAndLayout(
    s: Source, settings: Settings, backends: Backends, env: Env, script: Path, layout: Path)
    requires s.splitterWatcher.path.None? && s.layoutWatcher.path == Some(layout)
    requires settings.autosplitter == Some(script) && settings.layout == Some(layout)
    requires script != layout && Parent(script).Some? && Parent(layout).Some?
    requires backends.autosplitter == Backend(true, true) && backends.layout == Backend(true, true)
    ensures var splits := Retarget(ApplyDimensions(s, settings.width, settings.height),
                                   SplitsSlot, settings.splits, backends.splits, env);
            Retarget(splits, AutosplitterSlot, settings.autosplitter, backends.autosplitter, env)
              .layoutWatcher.path == Some(script)
    ensures var splits := Retarget(ApplyDimensions(s, settings.width, settings.height),
                                   SplitsSlot, settings.splits, backends.splits, env);
            var r := UpdateSettings(s, settings, backends, env);
            && r.layoutWatcher.path == Some(layout)
            && r.domain.scriptCalls == s.domain.scriptCalls + [Unload(env.unloadOk), Load(script, script in env.loadable)]
            && r.domain == UpdateLayout(UpdateAutosplitter(splits.domain, script, env), layout, env)
            && r.domain.layout == (if ParseLayout(layout, env.layouts).Some?
                                   then ParseLayout(layout, env.layouts).value else s.domain.layout)
  {
    var sized := ApplyDimensions(s, settings.width, settings.height);
    var splits := Retarget(sized, SplitsSlot, settings.splits, backends.splits, env);
    SplitsSettingKeepsOtherSlots(sized, settings.splits, backends.splits, env);
    ScriptSettingMovesLayoutWatcher(splits, script, layout, backends.autosplitter, env);
    var splitter := Retarget(splits, AutosplitterSlot, settings.autosplitter, backends.autosplitter, env);
    LayoutSettingMovesLayoutWatcher(splitter, layout, backends.layout, env);
    assert splitter.domain.scriptCalls == s.domain.scriptCalls + [Unload(env.unloadOk), Load(script, script in env.loadable)];
  }
}
