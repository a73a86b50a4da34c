# obs-livesplit: the config watcher and its reload loop, in Dafny

This project models the part of the LiveSplit One OBS source that keeps the
overlay in step with three files the user edits outside OBS: the splits file,
the layout file and the auto-splitter script.

- `ConfigWatcher` follows one file of interest. `change_file` moves the
  underlying directory watch from the old file's parent to the new file's
  parent. `check_events` takes debounced events off the watcher's channel
  until one says the file of interest was created or written.
- `parse_run` and `parse_layout` decide what a file yields. Splits need a
  non-empty run. Layouts try JSON first and fall back to the legacy format.
- The source's `update_settings` retargets a watcher when a path setting
  changes, and reloads right away only if the retarget succeeded.
  `video_render` drains the three watchers in a fixed order: splits, then
  auto-splitter, then layout. It reloads once per reported change.

Files and modules:

- `wrappers.dfy` (`Wrappers`): `Option`.
- `paths.dfy` (`Paths`): paths as sequences of components; `Parent`.
- `config.dfy` (`Config`): runs, layouts, the two parsers and the watcher
  state machine (`Watcher`, `ChangeFile`, `CheckEvents`).
- `plugin.dfy` (`Plugin`): the source. This holds the reloads, the settings
  handler, the drain loop, the mouse wheel, and a session (`Step`, `Replay`)
  of OBS callbacks and event deliveries.
- `plugin_proofs.dfy` (`PluginProofs`): properties of whole frames and whole
  sessions.

Everything outside the plugin is a parameter:

- The files on disk and what livesplit_core's parsers make of them are
  `RunFiles` and `LayoutFiles`.
- Whether the timer accepts a run, whether the runtime can unload or load a
  script, and the other outside outcomes of one call are collected in `Env`.
- The outcome of each `unwatch` and `watch` call is a `Backend`.
- The watcher's channel is the FIFO `queue` of a `Watcher`. The background
  thread's sends are the `Deliver` action of a session.

The auto-splitter setting is modelled as written. It is compared with the
auto-splitter watcher's path but retargets the layout watcher (`RetargetedBy`).
`SplitterNeverRetargeted` shows that in every session the auto-splitter
watcher has no path and watches nothing. So a frame never reloads the script.
`UnchangedSettingsReloadScriptAndLayout` shows that re-applying unchanged
settings, when the watcher calls succeed and the script and layout paths
differ and both have a parent, moves the layout watcher to the script's path
and back, and reloads both the script and the layout.

Three behaviours of the code are easy to miss:

- A failed unwatch returns before anything else happens. No new watch is
  attempted, and the old path is kept.
- A new path without a parent is still recorded before the "No Parent" error.
  Such a path (the empty path, say) then makes every later `change_file` to
  another path fail the same way (`EmptyPathStrandsWatcher`).
- Events for other files are not dropped when they arrive. They stay queued
  until `check_events` filters them.

## Model

| member | source | states |
|---|---|---|
| Paths.ParentOfPush | src/config.rs:103-112 | `Path::parent` undoes pushing one component, whatever the path and the component |
| Paths.NoParentIsEmptyOrRoot | src/config.rs:103-112 | the "No Parent" errors of `change_file` arise exactly for the empty path and for the root alone |
| Paths.Parent | src/config.rs:103-112 | `Path::parent`: there is no parent exactly when the path has no component; otherwise pushing the last component back onto the parent gives the path again |
| Config.DefaultRun | src/config.rs:33-37 | the default run has exactly one segment, named "Time" |
| Config.ParseRun | src/config.rs:39-56 | yields a run exactly when the path is Unicode and non-empty, the file can be read, the parser succeeds and the run has a segment; the run yielded is the parsed one |
| Config.ParseLayout | src/config.rs:58-79 | nothing for an empty or non-Unicode path or an unopenable file; the JSON layout when JSON parses; otherwise the legacy layout when the file rewinds, is UTF-8 and the legacy parser succeeds; else nothing |
| Config.LegacyOnlyAfterJson | src/config.rs:63-66 | when JSON parses, nothing about the legacy step (rewind, UTF-8, legacy parser) can change the result |
| Config.New | src/config.rs:88-95 | a new watcher has no path, watches nothing, has an empty queue and keeps the given delay |
| Config.Default | src/config.rs:128-131 | the default watcher has no path, watches nothing, has an empty queue and debounces for 200 ms |
| Config.NewWatchesNothing | src/config.rs:88-95 | a new watcher satisfies the slot invariant (at most the parent of its path is watched) |
| Config.ChangeFile | src/config.rs:97-115 | same path: unchanged and `Ok`; unwatch failure or old path without parent: unchanged and an error; otherwise the path becomes the new one, the old parent is unwatched and the new parent watched when `watch` succeeds; `Ok` exactly in the same-path case or when unwatch and watch both succeed and the new path has a parent |
| Config.ChangeFileKeepsInvariant | src/config.rs:97-115 | every outcome of `change_file` keeps "only the parent of the path is watched, if anything" |
| Config.FailedWatchDiverges | src/config.rs:109-114 | once past the unwatch step, a failed watch still records the new path while no directory is watched |
| Config.UnwatchedWatcherIsStuck | src/config.rs:103-107 | if unwatching a directory that is not watched fails, a watcher whose directory is not watched can never move to another path: every `change_file` fails and changes nothing |
| Config.EmptyPathStrandsWatcher | src/config.rs:97-115 | a new watcher retargeted at the empty path records it and reports "No Parent"; every later retarget to a non-empty path then fails with "No Parent" and changes nothing |
| Config.CheckEvents | src/config.rs:117-125 | only the queue changes, by losing a prefix; a report equals the path of interest and comes from the last consumed event, which is a create or write of that path; no earlier consumed event was relevant; with no report the queue is empty |
| Config.PollEvents | src/config.rs:117-125 | the event-by-event loop computes the same report and remaining watcher as `CheckEvents` |
| Config.CheckEventsStopsAtFirstMatch | src/config.rs:119-122 | with the first relevant event at index i, the report is the path of interest and exactly the events after i stay queued |
| Config.CheckEventsWithoutMatch | src/config.rs:119-124 | with no relevant event queued, nothing is reported and the queue is emptied |
| Config.CheckEventsConsumesOneMatch | src/config.rs:119-122 | a report consumes exactly one relevant event; no report consumes none |
| Plugin.UpdateSplits | src/lib.rs:52-62 | the run is replaced by the parsed run exactly when parsing yields a run and the timer accepts it; otherwise the run is unchanged; layout and script untouched; one log entry |
| Plugin.UpdateAutosplitter | src/lib.rs:64-71 | an unload call is always made first, then a load of the given path whatever the unload reported; run and layout untouched; logs "loaded" exactly when the load succeeded |
| Plugin.UpdateLayout | src/lib.rs:73-80 | the layout is replaced by the parsed layout exactly when parsing yields one, otherwise unchanged; run and script untouched; one log entry |
| Plugin.Drain | src/lib.rs:286-294 | a drain loop ends with the watcher's queue empty, its path and watched directories unchanged, and nothing left to report |
| Plugin.DrainLoop | src/lib.rs:286-288 | the `while let` loop computes the same watcher and domain as `Drain` |
| Plugin.VideoRender | src/lib.rs:285-294 | a frame empties all three queues, changes no watcher's path or watched directories, and leaves size and texture alone |
| Plugin.RetargetedBy | src/lib.rs:101-102 | no setting ever retargets the auto-splitter watcher; splits and layout settings retarget their own watchers, and the auto-splitter setting retargets the layout watcher |
| Plugin.Retarget | src/lib.rs:90-116 | a missing setting, or one equal to the compared watcher's path, changes nothing; otherwise the retargeted watcher becomes the `change_file` result, the other watchers stay, and the slot's reload runs exactly when `change_file` returned `Ok`, else only a failure is logged |
| Plugin.ApplyDimensions | src/lib.rs:83-89 | the texture is recreated exactly when both dimensions are present and one differs, and then width and height are the new ones; otherwise size and texture are unchanged; nothing else changes |
| Plugin.UpdateSettings | src/lib.rs:82-117 | never touches the auto-splitter watcher, and never touches any watcher's queue |
| Plugin.CreateSource | src/lib.rs:121-139 | a created source has the configured size and its first texture; every watcher has an empty queue and a 200 ms delay; the auto-splitter watcher is still the default one after the settings are applied |
| Plugin.MouseWheel | src/lib.rs:231-238 | a negative delta scrolls the layout down once, a positive one up once, zero changes nothing; nothing else changes |
| Plugin.Step | src/lib.rs:230-294 | an `update` callback is `update_settings`; a frame empties every queue; a wheel event leaves every watcher alone; a delivery only appends the events to the named watcher's queue; no callback moves the auto-splitter watcher, and only `update` moves any watcher |
| PluginProofs.DrainReloadsOncePerMatch | src/lib.rs:286-294 | a drain loop performs the slot's reload once per relevant queued event, for the path of interest, and nothing else |
| PluginProofs.DrainWithoutPathKeepsDomain | src/lib.rs:289-291 | a watcher without a path causes no reload, whatever is queued |
| PluginProofs.FrameReloadsInOrder | src/lib.rs:286-294 | a frame performs all splits reloads, then all auto-splitter reloads, then all layout reloads, one per relevant queued event |
| PluginProofs.FrameLeavesNothingToReport | src/lib.rs:286-294 | after a frame every watcher's queue is empty and `check_events` reports nothing |
| PluginProofs.ReloadTimesKeepsScript | src/lib.rs:52-80 | splits and layout reloads make no call to the auto-splitter runtime |
| PluginProofs.FrameNeverReloadsScript | src/lib.rs:289-291 | while the auto-splitter watcher has no path, a frame makes no call to the runtime |
| PluginProofs.ReplayKeepsSplitterWatch | src/lib.rs:99-107 | no step of a session changes the auto-splitter watcher's path or watched directories |
| PluginProofs.SplitterNeverRetargeted | src/lib.rs:135-137 | in every session of a created source the auto-splitter watcher has no path and watches nothing, so frames never reload the script |
| PluginProofs.RetargetKeepsInvariant | src/lib.rs:90-116 | one file setting keeps the slot invariant of all three watchers |
| PluginProofs.UpdateSettingsKeepsInvariant | src/lib.rs:82-117 | `update_settings` keeps the slot invariant of all three watchers |
| PluginProofs.StepKeepsInvariant | src/lib.rs:230-294 | settings, frames, wheel events and event deliveries each keep the slot invariant |
| PluginProofs.SessionKeepsInvariant | src/lib.rs:230-294 | every session keeps each watcher watching at most the parent of its path |
| PluginProofs.CreateSourceKeepsInvariant | src/lib.rs:121-139 | a created source starts with the slot invariant |
| PluginProofs.UnchangedSplitsSettingIsIgnored | src/lib.rs:90-98 | a missing splits setting, or one equal to the splits watcher's path, leaves the splits watcher and the run unchanged |
| PluginProofs.SplitsSettingKeepsOtherSlots | src/lib.rs:90-98 | the splits setting leaves the auto-splitter and layout watchers and the layout alone and makes no call to the auto-splitter runtime |
| PluginProofs.ScriptSettingMovesLayoutWatcher | src/lib.rs:99-107 | while the auto-splitter watcher has no path, an auto-splitter setting that differs from the layout path moves the layout watcher to the script's path and reloads the script, when the watcher calls succeed |
| PluginProofs.LayoutSettingMovesLayoutWatcher | src/lib.rs:108-116 | a layout setting that differs from the layout watcher's path moves the watcher to it and reloads the layout, when the watcher calls succeed |
| PluginProofs.UnchangedSettingsReloadScriptAndLayout | src/lib.rs:99-116 | with the script and layout settings already applied and all watcher calls succeeding, `update_settings` moves the layout watcher to the script's path and back to the layout path, makes exactly one unload and one load of the script, and ends with `update_layout` of the layout path, so the layout is the parsed layout when it parses and is unchanged otherwise |

## Left out

- The notify backend is not modelled: debounce timing, the background thread and the channel. The delay is only stored. Delivered events are an explicit `Deliver` action, and duplicate suppression by debouncing is not modelled.
- Events sent while `video_render` is draining a watcher are not modelled: deliveries happen only between callbacks. In the plugin the background thread can send during the `while let` loops; the model's drain therefore always terminates and leaves every queue empty.
- `watch` and `unwatch` outcomes are parameters. Which directories exist, and permissions, are not modelled.
- livesplit_core is not modelled. Runs, layouts and layout settings are abstract values, and parser results are parameters. `Timer::replace_run` is reduced to an accepted/rejected outcome that replaces the active run; its timer reset is not modelled. The auto-splitter runtime is a log of unload/load calls with their outcomes; its internal state is not modelled.
- The outside world is fixed for one call. File contents and service outcomes do not change between two reloads within one frame or one settings update.
- Path settings arrive already converted from text. `PathBuf::from` parsing, Windows prefixes and the normalisation of `.` components are not modelled. Raw names stand for components that are not valid Unicode. Some `Name` values stand for no component of a real path: an empty `Text`, a `Text` containing `/`, and a `Raw` name whose bytes are valid UTF-8 (which Rust would compare equal to the matching `Text`).
- The rendering half of `video_render` is not modelled: `update_state`, `render`, `set_image` and `draw`.
- These OBS parts are not modelled: module registration, properties, defaults (width 350, height 700), name/width/height getters, activate/deactivate, and hotkeys with the timer actions they dispatch.
- `save_splits` (unsafe FFI with file I/O) is not modelled, including its open question on suppressing the self-triggered reload.
- Log messages are reduced to `Note`s. Parser warnings are not recorded.
- Config.New: the panic when `RecommendedWatcher::new` cannot create the backend is not modelled; creation always succeeds.
- Plugin.CreateSource: the panic when width or height is missing is not modelled; OBS's defaults always supply both, so creation requires them.
- Releasing the directory watch when a source is destroyed is not modelled.
- Plugin.UpdateSettings: its own contract states only what the whole call leaves alone. The behaviour of each setting is stated on `Plugin.Retarget` and `Plugin.ApplyDimensions`, and in the lemmas about `update_settings`.
