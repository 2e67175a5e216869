# node-player playback controller, modelled in Dafny

node-player is a small controller between a caller and the groove audio
engine. It keeps three module variables: `files` (the open file handles),
`playing` and `paused`. It drives one engine playlist and one player through
`start`, `stop`, `pause`, `resume`, `next` and `setGain`. All teardown
happens in one routine, the `"nowplaying"` handler. That handler runs both
when `stop` clears the playlist and when the playlist runs out by itself.
Two helpers back the controller: `shuffle`, a Fisher–Yates shuffle of a
copy of an array, and `clamp`.

The project has six files:

- `utils.dfy` (module `Utils`) models utils.js. `Clamp` is a function.
  `Shuffle` is a method. It copies the input into a new array and runs the
  Fisher–Yates loop in place on the copy. It is proved equal to the
  specification function `Shuffled`, and lemmas about `Shuffled` state the
  permutation, length and "tail never rewritten" properties. The draws of
  `Math.random()` are a supplied sequence `random` of reals in [0, 1), one
  draw per loop index (entry 0 is never used). The index is computed as in
  the source, `Pick(r, i) = floor(r * (i + 1))`, and is proved to lie in
  [0, i].
- `groove.dfy` (module `Groove`) is the engine, reduced to abstract state.
  That state is the playlist items with distinct identity tokens, the
  current item, the attached flag, the set of open handles, gain,
  play/pause and a count of `clear()` calls. Each engine call is a pure
  function on that state. The engine is not part of the source, so these
  functions are assumptions about it. After `clear()` nothing is current.
  `attach` starts playback at the first item. `seek` moves the position and
  leaves the items alone.
- `player_spec.dfy` (module `PlayerSpec`) defines the controller's whole
  state as the datatype `State`. The handler and each command are
  functions on `State`. The lemmas state what the controller promises. The
  session invariant `Inv` says two things. When stopped, there are no files
  and no items, and the player is detached. When playing, the attached
  playlist holds exactly `files`, in order, and an item is current.
- `player.dfy` (module `Player`) holds the class `Controller`. Its fields
  are `files`, `playing`, `paused` and `engine`. Its methods update them
  step by step in the order of index.js: the handler, `stop`, `start` with
  its open/insert/close loops, `pause`, `resume`, `next` and `setGain`.
  Each method is proved to end in exactly the state the matching
  `PlayerSpec` function gives, and each command keeps `Inv`.
- `scenarios.dfy` (module `Scenarios`) proves four concrete command
  sequences, each starting from a freshly loaded module.
- `wrappers.dfy` holds the `Option` type used for `null`.

The `"nowplaying"` event is modelled as a method called synchronously. The
engine raises it after every `playlist.clear()`, so `ClearPlaylist` calls
`NowPlaying`. It also follows `seek` and the engine moving on by itself
(`TrackFinished`). The handler's own `clear()` therefore raises the event a
second time. That second call finds `playing` already false and does
nothing, which is why the handler sets `playing = false` first.

Three behaviours of the code are easy to misread. The model follows the code:

- When an open fails in `start`, the handles already opened for the other
  paths are not closed (index.js:62). `StartFailureLeaks` and
  `Scenarios.MiddleOpenFails` state this leak.
- `pause()` sets `paused` even while stopped (index.js:88-92), so
  `isPaused()` can be true when `isPlaying()` is false.
- `start` awaits `mod.stop()`, which returns `undefined`, not the
  handler's promise (index.js:55, index.js:76-84). In the code, teardown is
  therefore not awaited before the new files are opened. The synchronous
  event model rules that race out.

## Model

| member | source | states |
|---|---|---|
| Utils.Clamp | utils.js:34 | with min <= max the result lies in [min, max]; a value already in range is returned as is; below min gives min, above max gives max; with min > max the result is min |
| Utils.ClampIdempotent | utils.js:34 | clamping twice with the same bounds gives the same as clamping once |
| Utils.Pick | utils.js:11 | the index drawn at step i, floor(r * (i + 1)) for a draw r in [0, 1), lies in [0, i] |
| Utils.StepsPermutes | utils.js:10-16 | the loop's steps keep the length and the multiset of elements, for any in-range draws |
| Utils.StepsKeepTail | utils.js:10-16 | the steps from index i down never write a position above i |
| Utils.ShuffledPermutes | utils.js:5-19 | shuffle returns an array of the same length with the same multiset of elements as its input, whatever the draws |
| Utils.ShuffledShort | utils.js:10 | arrays of length 0 or 1 are returned unchanged |
| Utils.Shuffle | utils.js:5-19 | returns a fresh array, not the argument, equal to Shuffled of the input contents and a permutation of them; the argument is not in the modifies frame, so it is left untouched; the loop invariant says positions above i already hold their final values |
| Groove.IndexOf | index.js:116 | Array indexOf: -1 exactly when the token is absent, otherwise the first position holding it |
| Groove.IndexOfItem | index.js:115-116 | with distinct identity tokens, looking up an item's token finds that item's own position |
| PlayerSpec.Order | index.js:60 | the play order is the paths themselves, or their shuffle, always a permutation of them |
| PlayerSpec.OpenAllEngine | index.js:62 | opening the paths opens one fresh handle per readable path, in path order (handle k belongs to the k-th readable path), none for a broken path, with consecutive serials, and changes nothing else in the engine |
| PlayerSpec.OpenAllFails | index.js:62 | Promise.all rejects exactly when some path cannot be opened |
| PlayerSpec.OpenAllPaths | index.js:62 | when nothing fails, handle k is the one opened for path k |
| PlayerSpec.OpenAllReadable | index.js:62 | every readable path gets an open handle even when another path fails |
| PlayerSpec.InsertAllPost | index.js:64 | inserting appends one item per file, in file order, with fresh consecutive identity tokens |
| PlayerSpec.CloseAllPost | index.js:40 | closing the files removes exactly those handles from the open set and changes nothing else |
| PlayerSpec.InitialInv | index.js:9-12 | the loaded module is stopped, not paused, holds no files and satisfies the session invariant |
| PlayerSpec.SessionShape | index.js:9-12 | under the invariant, files is non-empty exactly when the playlist is non-empty and playing is true |
| PlayerSpec.NowPlayingIgnoresItem | index.js:25-28 | the handler changes nothing while an item is being played |
| PlayerSpec.NowPlayingIgnoresStopped | index.js:30-31 | the handler changes nothing once playing is false |
| PlayerSpec.ClearWhenStopped | index.js:37 | a clear made once playing is false only empties the playlist: the event it raises does nothing |
| PlayerSpec.TeardownPost | index.js:33-44 | teardown leaves playing false, the playlist empty and cleared only if it had items, every file closed, files empty and the player detached, with paused, gain and the rest unchanged |
| PlayerSpec.StopWhenStopped | index.js:78 | stop is a no-op when not playing |
| PlayerSpec.StopTearsDown | index.js:80-83 | stop while playing clears the playlist exactly once, and the handler then tears down: not playing, no items or files, detached, files closed |
| PlayerSpec.StopIdempotent | index.js:76-84 | two stop calls in a row leave the same state as one |
| PlayerSpec.StopKeepsInv | index.js:76-84 | stop keeps the session invariant |
| PlayerSpec.StopClosesEverything | index.js:39-41 | from a state with no leaked handle, stop leaves no handle open at all |
| PlayerSpec.StartEmpty | index.js:55-58 | start with no paths is exactly a stop, opens nothing and ends not playing |
| PlayerSpec.BeginEngine | index.js:64-71 | once all files are open, insert, attach and resume give a playlist of one new item per file, attached at the first item and rendering |
| PlayerSpec.BeginPost | index.js:62-71 | beginning a session from a stopped state gives playing, not paused, files equal to the new handles, and the engine invariant; the new handles are disjoint from those already open and there is one per file |
| PlayerSpec.StartSucceeds | index.js:62 | start reports success exactly when none of its paths is broken |
| PlayerSpec.StartPost | index.js:53-72 | a successful start with paths has one fresh open handle per path, in play order, and a playlist holding them in that order; the player is attached at the first item, playing and not paused |
| PlayerSpec.StartFailureLeaks | index.js:62 | a failed start leaves no session (not playing, no files, no items, detached), but the handles of the readable paths stay open |
| PlayerSpec.StartKeepsInv | index.js:53-72 | start keeps the session invariant, whether it succeeds or fails |
| PlayerSpec.StartLeakFree | index.js:53-72 | a successful start from a leak-free state leaves exactly one open handle per path and no other |
| PlayerSpec.NextWhenIdle | index.js:108-111 | next is a no-op when no item is current |
| PlayerSpec.NextPost | index.js:113-122 | next on item k seeks to offset 0 of item k + 1, with items and files unchanged, or stops when k is the last item |
| PlayerSpec.NextKeepsInv | index.js:106-123 | next keeps the session invariant and leak-freedom |
| PlayerSpec.TrackFinishedPost | index.js:23-45 | when an item ends, the next one plays; past the last one the handler tears down, clearing the playlist once and closing the files |
| PlayerSpec.TrackFinishedKeepsInv | index.js:23-45 | the end of an item keeps the session invariant and leak-freedom |
| PlayerSpec.PauseResumeFlags | index.js:88-100 | pause makes isPaused true and resume makes it false, whatever the transport state; neither changes isPlaying, files, the open handles, the playlist items or the current item, and both keep the invariant |
| PlayerSpec.SetGainClamps | index.js:150 | setGain sets the engine's gain to n bounded to [0, 1] (1.5 gives 1, -0.3 gives 0) and changes nothing else |
| PlayerSpec.InfosNullWhenStopped | index.js:130-135 | getCurrentMusicInfos is null exactly when isPlaying is false |
| Player.Controller.constructor | index.js:9-12 | the module starts stopped and unpaused, with no files, and satisfies the invariant |
| Player.Controller.NowPlaying | index.js:23-45 | the handler method ends in the state PlayerSpec.NowPlaying gives |
| Player.Controller.ClearPlaylist | index.js:80-83 | clearing and the event it raises end in the state PlayerSpec.ClearPlaylist gives |
| Player.Controller.CloseFiles | index.js:40 | the close loop closes exactly the handles in files and changes nothing else |
| Player.Controller.OpenFiles | index.js:62 | the open loop opens every path and reports failure as PlayerSpec.OpenAll does |
| Player.Controller.InsertFiles | index.js:64 | the insert loop appends the files to the playlist as PlayerSpec.InsertAll does |
| Player.Controller.Start | index.js:53-72 | start keeps the invariant and ends in the state and outcome PlayerSpec.Start gives, with the loops and the shuffle run in place |
| Player.Controller.Stop | index.js:76-84 | stop keeps the invariant and ends in the state PlayerSpec.Stop gives |
| Player.Controller.Pause | index.js:88-92 | pause ends in the state PlayerSpec.Pause gives and keeps the invariant |
| Player.Controller.Resume | index.js:96-100 | resume ends in the state PlayerSpec.Resume gives and keeps the invariant |
| Player.Controller.Next | index.js:106-123 | next keeps the invariant and ends in the state PlayerSpec.Next gives |
| Player.Controller.SetGain | index.js:150 | setGain ends in the state PlayerSpec.SetGain gives and keeps the invariant |
| Player.Controller.TrackFinished | index.js:23-45 | the engine moving on, followed by the handler, keeps the invariant and ends in the state PlayerSpec.TrackFinished gives |
| Utils.Shuffled | utils.js:5-19 | no contract of its own: the specification of what shuffle returns for given draws; its properties are StepsPermutes, StepsKeepTail, ShuffledPermutes and ShuffledShort, and Shuffle is proved equal to it |
| PlayerSpec.OpenAll | index.js:62 | no contract of its own: the engine, handles and rejection after opening every path; its properties are OpenAllEngine, OpenAllFails, OpenAllPaths and OpenAllReadable |
| PlayerSpec.InsertAll | index.js:64 | no contract of its own: the engine after inserting every file; its property is InsertAllPost |
| PlayerSpec.CloseAll | index.js:40 | no contract of its own: the engine after closing every file; its property is CloseAllPost |
| PlayerSpec.NowPlaying | index.js:23-45 | no contract of its own: the state after the handler; its properties are NowPlayingIgnoresItem, NowPlayingIgnoresStopped and TeardownPost |
| PlayerSpec.ClearPlaylist | index.js:37 | no contract of its own: the state after clear() and the event it raises; its property is ClearWhenStopped, and StopTearsDown covers its use at index.js:83 |
| PlayerSpec.Stop | index.js:76-84 | no contract of its own: the state after stop; its properties are StopWhenStopped, StopTearsDown, StopIdempotent, StopKeepsInv and StopClosesEverything |
| PlayerSpec.Start | index.js:53-72 | no contract of its own: the state and outcome after start; its properties are StartEmpty, StartSucceeds, StartPost, StartFailureLeaks, StartKeepsInv and StartLeakFree |
| PlayerSpec.Begin | index.js:62-71 | no contract of its own: the rest of start once every file opened; its properties are BeginEngine and BeginPost |
| PlayerSpec.Pause | index.js:88-92 | no contract of its own: the state after pause; its property is PauseResumeFlags |
| PlayerSpec.Resume | index.js:96-100 | no contract of its own: the state after resume; its property is PauseResumeFlags |
| PlayerSpec.Next | index.js:106-123 | no contract of its own: the state after next; its properties are NextWhenIdle, NextPost and NextKeepsInv |
| PlayerSpec.SetGain | index.js:150 | no contract of its own: the state after setGain; its property is SetGainClamps |
| PlayerSpec.IsPaused | index.js:154 | no contract of its own: the paused flag; PauseResumeFlags, StartPost and InitialInv state what it is after each command |
| PlayerSpec.IsPlaying | index.js:158 | no contract of its own: the playing flag; StartPost, StopTearsDown, TeardownPost and TrackFinishedPost state when it is true |
| PlayerSpec.CurrentMusicInfos | index.js:130-135 | no contract of its own: the current item's file, or null when no item is current; its property is InfosNullWhenStopped |
| Player.Controller.IsPaused | index.js:154 | no contract of its own: the getter reads PlayerSpec.IsPaused of the object's state |
| Player.Controller.IsPlaying | index.js:158 | no contract of its own: the getter reads PlayerSpec.IsPlaying of the object's state |
| Player.Controller.CurrentMusicInfos | index.js:130-135 | no contract of its own: reads PlayerSpec.CurrentMusicInfos of the object's state |
| Scenarios.SkipThenStop | index.js:106-123 | start(["a.mp3", "b.mp3"], false) plays a then b: a.mp3's item is current first, and next on it makes b.mp3's item current with the playlist unchanged; next on b stops, leaving nothing playing, no handle open and no current infos |
| Scenarios.StartNothing | index.js:55-58 | start([], true) on a fresh module changes no state at all |
| Scenarios.RestartAfterPause | index.js:55-71 | start(["a.mp3"]), then pause, then start(["b.mp3"]) ends unpaused and playing, with only b.mp3's handle open |
| Scenarios.MiddleOpenFails | index.js:62 | when the second of three paths cannot be opened, start fails with nothing attached or playing, and the first and third handles stay open |

## Left out

- The groove engine itself: decoding, rendering and output device choice
  (index.js:1, index.js:5-7, index.js:20). It is the abstract `Groove.Engine`
  state, and its calls are assumed to behave as `groove.dfy` states.
- `promisify` (utils.js:26) wraps foreign callback functions and has no logic
  of its own. Each wrapped call is the corresponding engine function.
- Real asynchrony. The model does not cover a `start` racing a late
  `"nowplaying"` event, overlapping `start` calls, or the handler's awaits
  interleaving with commands. The event is a handler called synchronously
  where the engine raises it.
- Attach and detach failures, and close errors. The engine calls other than
  `open` always succeed here. `close` resolves anyway in the source.
- Utils.Shuffle: does not state that the draw makes the permutation
  uniform. That depends on `Math.random` and cannot be proved. The draws
  are an in-range oracle instead, and floating-point rounding of
  `Math.random() * (i + 1)` is not modelled (reals stand in for floats).
- Utils.Clamp: models the bound over reals. NaN and the other special
  float values are not modelled.
- PlayerSpec.CurrentMusicInfos: covers only whether the result is null. It
  returns the current file, not its position, duration, metadata and
  filename, which are floats and engine reads (index.js:137-142).
- The two positions are one value. The handler reads `player.position().item`
  (index.js:25), while `next` and `getCurrentMusicInfos` read
  `playlist.position()` (index.js:108, index.js:132). Both are modelled as
  the single `Groove.Engine.current`, on which `NextPost` and
  `InfosNullWhenStopped` rely.
- The file system does not change between calls: `Groove.Engine.broken`
  (the paths that fail to open) is fixed for the whole model, so a path that
  fails once fails always. `PlayerSpec.StartSucceeds` and the scenarios rely
  on this.
- The engine emitting `"nowplaying"` after `attach` is not modelled. An item
  is current at that point, so the handler would do nothing.
