/**
 * index.js as it runs: the module variables `files`, `playing` and `paused`
 * and the engine they drive, updated step by step by the commands and by the
 * "nowplaying" handler. Every method is proved to move the state exactly as
 * the matching function of PlayerSpec says, and to keep the session invariant.
 */
module Player {
  import opened Wrappers
  import opened Groove
  import Utils
  import PlayerSpec

  class Controller {
    var files: seq<Handle>
    var playing: bool
    var paused: bool
    var engine: Engine

    /** The whole state, as PlayerSpec describes it. */
    function Model(): PlayerSpec.State
      reads this
    {
      PlayerSpec.State(files, playing, paused, engine)
    }

    ghost predicate Valid()
      reads this
    {
      PlayerSpec.Inv(Model())
    }

    /** Loading the module: nothing open, stopped, not paused. */
    constructor (broken: set<string>)
      ensures Valid() && Model() == PlayerSpec.Initial(broken)
    {
      files, playing, paused := [], false, false;
      engine := Groove.Empty(broken);
    }

    /** The "nowplaying" handler, which is the one teardown routine. */
    method NowPlaying()
      modifies this
      ensures Model() == PlayerSpec.NowPlaying(old(Model()))
      decreases if playing then 1 else 0, 0
    {
      var item := engine.current;
      if item.Some? {
        return;
      }
      if !playing {
        return;
      }
      playing := false;
      if |engine.items| > 0 {
        ClearPlaylist();
      }
      CloseFiles();
      files := [];
      engine := Detach(engine);
    }

    /** `playlist.clear()`, after which the engine raises "nowplaying". */
    method ClearPlaylist()
      modifies this
      ensures Model() == PlayerSpec.ClearPlaylist(old(Model()))
      decreases if playing then 1 else 0, 1
    {
      engine := Clear(engine);
      NowPlaying();
    }

    /** Closes every handle in `files`, awaiting all of them. */
    method CloseFiles()
      modifies this
      ensures Model() == old(Model()).(engine := PlayerSpec.CloseAll(old(engine), old(files)))
    {
      var i := 0;
      while i < |files|
        invariant 0 <= i <= |files|
        invariant files == old(files) && playing == old(playing) && paused == old(paused)
        invariant engine == PlayerSpec.CloseAll(old(engine), files[..i])
      {
        assert files[..i + 1][..i] == files[..i];
        engine := Close(engine, files[i]);
        i := i + 1;
      }
      assert files[..i] == files;
    }

    /** Opens every path; `failed` when any open rejected. */
    method OpenFiles(paths: seq<string>) returns (handles: seq<Handle>, failed: bool)
      modifies this
      ensures PlayerSpec.Opened(engine, handles, failed) == PlayerSpec.OpenAll(old(engine), paths)
      ensures files == old(files) && playing == old(playing) && paused == old(paused)
    {
      handles, failed := [], false;
      var i := 0;
      while i < |paths|
        invariant 0 <= i <= |paths|
        invariant files == old(files) && playing == old(playing) && paused == old(paused)
        invariant PlayerSpec.Opened(engine, handles, failed) == PlayerSpec.OpenAll(old(engine), paths[..i])
      {
        assert paths[..i + 1][..i] == paths[..i];
        var step := Open(engine, paths[i]);
        engine := step.0;
        match step.1 {
          case Some(h) => handles := handles + [h];
          case None => failed := true;
        }
        i := i + 1;
      }
      assert paths[..i] == paths;
    }

    /** `files.forEach(file => playlist.insert(file))`. */
    method InsertFiles()
      modifies this
      ensures Model() == old(Model()).(engine := PlayerSpec.InsertAll(old(engine), old(files)))
    {
      var i := 0;
      while i < |files|
        invariant 0 <= i <= |files|
        invariant files == old(files) && playing == old(playing) && paused == old(paused)
        invariant engine == PlayerSpec.InsertAll(old(engine), files[..i])
      {
        assert files[..i + 1][..i] == files[..i];
        engine := Insert(engine, files[i]);
        i := i + 1;
      }
      assert files[..i] == files;
    }

    /** `start(filePaths, shuffle)`; `ok` is false when an open rejected. */
    method Start(filePaths: array<string>, shuffle: bool, random: seq<real>) returns (ok: bool)
      requires Valid()
      requires shuffle ==> Utils.Draws(random, filePaths.Length)
      modifies this
      ensures Valid()
      ensures (Model(), ok) == PlayerSpec.Start(old(Model()), filePaths[..], shuffle, random)
    {
      PlayerSpec.StartKeepsInv(Model(), filePaths[..], shuffle, random);
      Stop();
      if filePaths.Length == 0 {
        return true;
      }
      var paths := filePaths;
      if shuffle {
        paths := Utils.Shuffle(filePaths, random);
      }
      var handles, failed := OpenFiles(paths[..]);
      if failed {
        return false;
      }
      files := handles;
      InsertFiles();
      engine := Attach(engine);
      playing := true;
      Resume();
      ok := true;
    }

    /** `stop()`: clearing the playlist makes the handler tear down. */
    method Stop()
      requires Valid()
      modifies this
      ensures Valid() && Model() == PlayerSpec.Stop(old(Model()))
    {
      PlayerSpec.StopKeepsInv(Model());
      if !playing {
        return;
      }
      ClearPlaylist();
    }

    /** `pause()`. */
    method Pause()
      modifies this
      ensures Model() == PlayerSpec.Pause(old(Model()))
      ensures old(Valid()) ==> Valid()
    {
      PlayerSpec.PauseResumeFlags(Model());
      paused := true;
      engine := PausePlaylist(engine);
    }

    /** `resume()`. */
    method Resume()
      modifies this
      ensures Model() == PlayerSpec.Resume(old(Model()))
      ensures old(Valid()) ==> Valid()
    {
      PlayerSpec.PauseResumeFlags(Model());
      paused := false;
      engine := Play(engine);
    }

    /** `next()`: seeks to the item after the current one, or stops after the last. */
    method Next()
      requires Valid()
      modifies this
      ensures Valid() && Model() == PlayerSpec.Next(old(Model()))
    {
      PlayerSpec.NextKeepsInv(Model());
      var current := engine.current;
      if current.None? {
        return;
      }
      var all := engine.items;
      var next := IndexOf(Ids(all), current.value.id) + 1;
      if next >= |all| {
        Stop();
        return;
      }
      engine := Seek(engine, all[next], 0.0);
      NowPlaying();
    }

    /** `setGain(n)`. */
    method SetGain(n: real)
      modifies this
      ensures Model() == PlayerSpec.SetGain(old(Model()), n)
      ensures old(Valid()) ==> Valid()
    {
      engine := SetPlaylistGain(engine, Utils.Clamp(n, 0.0, 1.0));
    }

    /** The engine finishing the current item and raising "nowplaying". */
    method TrackFinished()
      requires Valid()
      modifies this
      ensures Valid() && Model() == PlayerSpec.TrackFinished(old(Model()))
    {
      PlayerSpec.TrackFinishedKeepsInv(Model());
      engine := Advance(engine);
      NowPlaying();
    }

    /** `isPaused()`. */
    function IsPaused(): bool
      reads this
    {
      PlayerSpec.IsPaused(Model())
    }

    /** `isPlaying()`. */
    function IsPlaying(): bool
      reads this
    {
      PlayerSpec.IsPlaying(Model())
    }

    /** `getCurrentMusicInfos()`, reduced to the file it reads, or `null`. */
    function CurrentMusicInfos(): Option<Handle>
      reads this
    {
      PlayerSpec.CurrentMusicInfos(Model())
    }
  }
}
