/**
  The configuration side of the plugin (src/config.rs): reading splits and
  layout files, and the `ConfigWatcher` that follows one file of interest.

  The parsers of livesplit_core are not modelled: what they return for a file
  is given as an oracle (`RunFiles`, `LayoutFiles`), and so are the outcomes of
  the file-system watcher's `watch` and `unwatch` calls (`Backend`). The
  watcher's debounced event channel is a plain FIFO queue.
 */
module Config {
  import opened Wrappers
  import opened Paths

  // ---------------------------------------------------------------------------
  // Runs and layouts (livesplit_core values, kept abstract)
  // ---------------------------------------------------------------------------

  datatype Segment = Segment(name: string)

  /** A run is empty when it has no segment. */
  datatype Run = Run(segments: seq<Segment>)

  /** The run the timer starts with: a single segment called "Time". */
  function DefaultRun(): (r: Run)
    ensures |r.segments| == 1 && r.segments[0].name == "Time"
  {
    Run([Segment("Time")])
  }

  /** What a foreign parser made of a file's contents. */
  datatype Parsed<+T> = Parsed(value: T) | Malformed

  /**
    The splits files on disk, as `composite::parse` sees them: a path missing
    from the map cannot be read (`fs::read` fails).
   */
  type RunFiles = map<Path, Parsed<Run>>

  /** The path passes the `to_str()?.is_empty()` guard both parsers start with. */
  predicate Nameable(p: Path) {
    IsUnicode(p) && !IsEmpty(p)
  }

  /** `parse_run`: a non-empty run parsed from the file, or nothing. */
  function ParseRun(p: Path, files: RunFiles): (r: Option<Run>)
    ensures r.Some? <==>
              Nameable(p) && p in files && files[p].Parsed? && |files[p].value.segments| > 0
    ensures r.Some? ==> files[p] == Parsed(r.value)
  {
    if !IsUnicode(p) || IsEmpty(p) then None
    else if p !in files then None
    else match files[p]
      case Malformed => None
      case Parsed(run) => if |run.segments| == 0 then None else Some(run)
  }

  datatype Scroll = Up | Down

  /** A layout: which layout it is, and the scroll requests it has received. */
  datatype Layout = Layout(id: nat, scrolls: seq<Scroll>)

  /** The JSON layout settings a layout is built from. */
  datatype LayoutSettings = LayoutSettings(id: nat)

  /** `Layout::default_layout`. */
  const DefaultLayout := Layout(0, [])

  /** `Layout::from_settings`: a fresh, unscrolled layout. */
  function FromSettings(s: LayoutSettings): (r: Layout)
    ensures r.id == s.id && r.scrolls == []
  {
    Layout(s.id, [])
  }

  /**
    One layout file, as the steps of `parse_layout` see it: the JSON parser's
    result, whether seeking back to the start succeeds, whether the contents
    are valid UTF-8 (`read_to_string`), and the legacy parser's result.
   */
  datatype LayoutFile = LayoutFile(
    json: Parsed<LayoutSettings>,
    rewinds: bool,
    utf8: bool,
    legacy: Parsed<Layout>)

  /** The layout files on disk: a path missing from the map cannot be opened. */
  type LayoutFiles = map<Path, LayoutFile>

  /** The legacy fallback can produce a layout from this file. */
  predicate LegacyReadable(f: LayoutFile) {
    f.rewinds && f.utf8 && f.legacy.Parsed?
  }

  /** `parse_layout`: JSON first, then the legacy format, else nothing. */
  function ParseLayout(p: Path, files: LayoutFiles): (r: Option<Layout>)
    ensures r.Some? ==> Nameable(p) && p in files
    ensures Nameable(p) && p in files && files[p].json.Parsed? ==>
              r == Some(FromSettings(files[p].json.value))
    ensures Nameable(p) && p in files && files[p].json.Malformed? ==>
              r == (if LegacyReadable(files[p]) then Some(files[p].legacy.value) else None)
  {
    if !IsUnicode(p) || IsEmpty(p) then None
    else if p !in files then None
    else
      var f := files[p];
      match f.json
      case Parsed(settings) => Some(FromSettings(settings))
      case Malformed =>
        if !f.rewinds || !f.utf8 then None
        else match f.legacy
          case Parsed(l) => Some(l)
          case Malformed => None
  }

  /** The legacy parser is consulted only after the JSON parser failed. */
  lemma LegacyOnlyAfterJson(p: Path, files: LayoutFiles, other: LayoutFile)
    requires p in files && files[p].json.Parsed? && other.json == files[p].json
    ensures ParseLayout(p, files[p := other]) == ParseLayout(p, files)
  {
  }

  // ---------------------------------------------------------------------------
  // ConfigWatcher
  // ---------------------------------------------------------------------------

  /** The debounce delay of `ConfigWatcher::default`, in milliseconds. */
  const DefaultDelayMs: nat := 200

  /** A debounced file-system event; `Other` stands for every other kind. */
  datatype Event = Create(path: Path) | Write(path: Path) | Other

  /** Outcomes of the file-system watcher's `unwatch` and `watch` calls. */
  datatype Backend = Backend(unwatchOk: bool, watchOk: bool)

  /** `NoParent` is the "No Parent" error; `Refused` an error of the watcher itself. */
  datatype WatchError = NoParent | Refused

  datatype Status = Ok | Err(error: WatchError)

  /**
    A `ConfigWatcher`: the one path of interest, the directories the
    underlying watcher watches (each recursively), the events waiting in its
    channel, and its debounce delay.
   */
  datatype Watcher = Watcher(
    path: Option<Path>,
    watched: set<Path>,
    queue: seq<Event>,
    delayMs: nat)

  datatype Change = Change(watcher: Watcher, status: Status)

  datatype Poll = Poll(found: Option<Path>, watcher: Watcher)

  /** `ConfigWatcher::new`: no path, nothing watched, nothing queued. */
  function New(delayMs: nat): (w: Watcher)
    ensures w.path.None? && w.watched == {} && w.queue == []
    ensures w.delayMs == delayMs
  {
    Watcher(None, {}, [], delayMs)
  }

  /** `ConfigWatcher::default`: a new watcher debouncing for 200 ms. */
  function Default(): (w: Watcher)
    ensures w.path.None? && w.watched == {} && w.queue == []
    ensures w.delayMs == 200
  {
    New(DefaultDelayMs)
  }

  /**
    `change_file` gets past its unwatch step: either there is no current path,
    or the current path has a parent and unwatching it succeeds.
   */
  predicate PassesUnwatch(w: Watcher, backend: Backend) {
    w.path.None? || (Parent(w.path.value).Some? && backend.unwatchOk)
  }

  /** `change_file`: retarget the watcher at `p`. */
  function ChangeFile(w: Watcher, p: Path, backend: Backend): (r: Change)
    // the same path again changes nothing and succeeds
    ensures w.path == Some(p) ==> r == Change(w, Ok)
    // an unwatch failure returns before the path is touched
    ensures w.path != Some(p) && !PassesUnwatch(w, backend) ==>
              r.watcher == w && r.status.Err?
    // past the unwatch step the path is recorded, whatever the watch step does
    ensures w.path != Some(p) && PassesUnwatch(w, backend) ==>
              && r.watcher.path == Some(p)
              && r.watcher.queue == w.queue
              && r.watcher.delayMs == w.delayMs
              && r.watcher.watched ==
                 (w.watched - ParentSet(w.path))
                 + (if backend.watchOk then ParentSet(Some(p)) else {})
    ensures r.status.Ok? <==>
              w.path == Some(p)
              || (PassesUnwatch(w, backend) && Parent(p).Some? && backend.watchOk)
  {
    if w.path == Some(p) then Change(w, Ok)
    else if w.path.Some? && Parent(w.path.value).None? then Change(w, Err(NoParent))
    else if w.path.Some? && !backend.unwatchOk then Change(w, Err(Refused))
    else
      var unwatched := w.watched - ParentSet(w.path);
      var moved := w.(path := Some(p), watched := unwatched);
      match Parent(p)
      case None => Change(moved, Err(NoParent))
      case Some(dir) =>
        if backend.watchOk then Change(moved.(watched := unwatched + {dir}), Ok)
        else Change(moved, Err(Refused))
  }

  /**
    The slot invariant: at most one directory is under watch, and
    if one is, it is the parent of the path of interest.
   */
  predicate WatchesAtMostParent(w: Watcher) {
    w.watched <= ParentSet(w.path)
  }

  /** A new watcher satisfies the slot invariant. */
  lemma NewWatchesNothing(delayMs: nat)
    ensures WatchesAtMostParent(New(delayMs))
  {
  }

  /** Every outcome of `change_file` keeps the slot invariant. */
  lemma ChangeFileKeepsInvariant(w: Watcher, p: Path, backend: Backend)
    requires WatchesAtMostParent(w)
    ensures WatchesAtMostParent(ChangeFile(w, p, backend).watcher)
  {
    var r := ChangeFile(w, p, backend);
    if w.path != Some(p) && PassesUnwatch(w, backend) {
      assert w.watched - ParentSet(w.path) == {};
    }
  }

  /**
    A failed watch of the new parent leaves the recorded path and the watched
    directories apart: the path is new, its directory is not watched.
   */
  lemma FailedWatchDiverges(w: Watcher, p: Path, backend: Backend)
    requires WatchesAtMostParent(w)
    requires w.path != Some(p) && PassesUnwatch(w, backend) && !backend.watchOk
    ensures ChangeFile(w, p, backend).watcher.path == Some(p)
    ensures ChangeFile(w, p, backend).watcher.watched == {}
    ensures ChangeFile(w, p, backend).status == Err(Refused) || Parent(p).None?
  {
    assert w.watched - ParentSet(w.path) == {};
  }

  /**
    If the underlying watcher refuses to unwatch a directory it does not
    watch, a watcher whose directory is not watched can never be moved again:
    every `change_file` to another path fails and changes nothing.
   */
  lemma UnwatchedWatcherIsStuck(w: Watcher, p: Path, backend: Backend)
    requires w.path.Some? && w.path != Some(p)
    requires ParentSet(w.path) !! w.watched
    requires Parent(w.path.value).Some? && backend.unwatchOk ==> Parent(w.path.value).value in w.watched
    ensures ChangeFile(w, p, backend) == Change(w, Err(if Parent(w.path.value).None? then NoParent else Refused))
  {
  }

  /**
    Retargeting a new watcher at the empty path fails with "No Parent" but
    records that path, and from then on every `change_file` to another path
    fails with "No Parent" and changes nothing.
   */
  lemma EmptyPathStrandsWatcher(delayMs: nat, p: Path, first: Backend, later: Backend)
    requires !IsEmpty(p)
    ensures var stranded := ChangeFile(New(delayMs), Path(false, []), first);
            && stranded.status == Err(NoParent)
            && stranded.watcher.path == Some(Path(false, []))
            && ChangeFile(stranded.watcher, p, later) == Change(stranded.watcher, Err(NoParent))
  {
  }

  /** The event announces that exactly the path of interest was created or written. */
  predicate Relevant(e: Event, path: Option<Path>) {
    (e.Create? || e.Write?) && path == Some(e.path)
  }

  /** The number of events in `q` that are relevant to `path`. */
  function MatchCount(q: seq<Event>, path: Option<Path>): nat {
    if |q| == 0 then 0
    else (if Relevant(q[0], path) then 1 else 0) + MatchCount(q[1..], path)
  }

  /**
    `check_events`: take events off the queue until one is relevant, and
    report its path; report nothing once the queue is empty.
   */
  function CheckEvents(w: Watcher): (r: Poll)
    decreases |w.queue|
    // only the queue changes, and only by losing a prefix
    ensures r.watcher == w.(queue := r.watcher.queue)
    ensures |r.watcher.queue| <= |w.queue|
    ensures r.watcher.queue == w.queue[|w.queue| - |r.watcher.queue|..]
    // a report is the path of interest, taken from the last consumed event
    ensures r.found.Some? ==>
              && r.found == w.path
              && |r.watcher.queue| < |w.queue|
              && Relevant(w.queue[|w.queue| - |r.watcher.queue| - 1], w.path)
    // no consumed event before that one was relevant
    ensures forall i | 0 <= i < |w.queue| - |r.watcher.queue| - (if r.found.Some? then 1 else 0) ::
              !Relevant(w.queue[i], w.path)
    // without a report the queue is drained
    ensures r.found.None? ==> r.watcher.queue == []
  {
    if |w.queue| == 0 then Poll(None, w)
    else if Relevant(w.queue[0], w.path) then Poll(Some(w.queue[0].path), w.(queue := w.queue[1..]))
    else CheckEvents(w.(queue := w.queue[1..]))
  }

  /**
    The `while let Ok(event) = rx.try_recv()` loop of `check_events`, event by
    event; it computes what `CheckEvents` describes.
   */
  method PollEvents(w: Watcher) returns (found: Option<Path>, rest: Watcher)
    ensures Poll(found, rest) == CheckEvents(w)
  {
    var queue := w.queue;
    while |queue| > 0
      invariant CheckEvents(w.(queue := queue)) == CheckEvents(w)
    {
      var event := queue[0];
      queue := queue[1..];
      if (event.Create? || event.Write?) && w.path == Some(event.path) {
        return Some(event.path), w.(queue := queue);
      }
    }
    return None, w.(queue := queue);
  }

  /** With a relevant event at `i` and none before it, `check_events` stops just after `i`. */
  lemma {:induction false} CheckEventsStopsAtFirstMatch(w: Watcher, i: nat)
    requires i < |w.queue| && Relevant(w.queue[i], w.path)
    requires forall j | 0 <= j < i :: !Relevant(w.queue[j], w.path)
    ensures CheckEvents(w) == Poll(w.path, w.(queue := w.queue[i + 1..]))
    decreases i
  {
    if i > 0 {
      var rest := w.(queue := w.queue[1..]);
      assert !Relevant(w.queue[0], w.path);
      CheckEventsStopsAtFirstMatch(rest, i - 1);
      assert rest.queue[i..] == w.queue[i + 1..];
    }
  }

  /** Without a relevant event, `check_events` reports nothing and empties the queue. */
  lemma CheckEventsWithoutMatch(w: Watcher)
    requires forall j | 0 <= j < |w.queue| :: !Relevant(w.queue[j], w.path)
    ensures CheckEvents(w) == Poll(None, w.(queue := []))
  {
  }

  /** Each report of `check_events` consumes exactly one relevant event. */
  lemma {:induction false} CheckEventsConsumesOneMatch(w: Watcher)
    decreases |w.queue|
    ensures var r := CheckEvents(w);
            MatchCount(w.queue, w.path) ==
            MatchCount(r.watcher.queue, w.path) + (if r.found.Some? then 1 else 0)
  {
    if |w.queue| == 0 {
    } else if Relevant(w.queue[0], w.path) {
    } else {
      CheckEventsConsumesOneMatch(w.(queue := w.queue[1..]));
    }
  }
}
