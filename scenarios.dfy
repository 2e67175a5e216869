/** Concrete command sequences of the controller, from a freshly loaded module. */
module Scenarios {
  import opened Wrappers
  import opened PlayerSpec

  /**
   * Two files in order: `next()` on the first seeks to the second, `next()`
   * on the second stops, and nothing is left open or playing.
   */
  lemma SkipThenStop()
    ensures var (s1, ok) := Start(Initial({}), ["a.mp3", "b.mp3"], false, []);
      var s2 := Next(s1);
      var s3 := Next(s2);
      && ok && IsPlaying(s1)
      && |s1.files| == 2 && s1.files[0].path == "a.mp3" && s1.files[1].path == "b.mp3"
      && s1.engine.current == Some(s1.engine.items[0])
      && s1.engine.current.value.file == s1.files[0] && s1.engine.current.value.file.path == "a.mp3"
      && s2.engine.current == Some(s2.engine.items[1])
      && s2.engine.current.value.file == s1.files[1] && s2.engine.current.value.file.path == "b.mp3"
      && s2.engine.items == s1.engine.items && s2.files == s1.files
      && !IsPlaying(s3) && s3.engine.open == {} && CurrentMusicInfos(s3) == None
  {
    var s0 := Initial({});
    InitialInv({});
    StartSucceeds(s0, ["a.mp3", "b.mp3"], false, []);
    StartPost(s0, ["a.mp3", "b.mp3"], false, []);
    StartLeakFree(s0, ["a.mp3", "b.mp3"], false, []);
    var s1 := Start(s0, ["a.mp3", "b.mp3"], false, []).0;
    NextPost(s1, 0);
    NextKeepsInv(s1);
    var s2 := Next(s1);
    NextPost(s2, 1);
    StopClosesEverything(s2);
    StopTearsDown(s2);
  }

  /** `start` with no paths from a fresh module makes no engine call at all. */
  lemma StartNothing()
    ensures Start(Initial({}), [], true, []) == (Initial({}), true)
  {
    StartEmpty(Initial({}), true, []);
  }

  /**
   * Pausing and then starting again: the new session is not paused, and only
   * the new file's handle is open, the old one having been closed by the stop.
   */
  lemma RestartAfterPause()
    ensures var s1 := Start(Initial({}), ["a.mp3"], false, []).0;
      var (s3, ok) := Start(Pause(s1), ["b.mp3"], false, []);
      && ok && IsPlaying(s3) && !IsPaused(s3)
      && |s3.engine.open| == 1 && (forall h :: h in s3.engine.open ==> h.path == "b.mp3")
  {
    var s0 := Initial({});
    InitialInv({});
    StartSucceeds(s0, ["a.mp3"], false, []);
    StartLeakFree(s0, ["a.mp3"], false, []);
    var s1 := Start(s0, ["a.mp3"], false, []).0;
    StartKeepsInv(s0, ["a.mp3"], false, []);
    var s2 := Pause(s1);
    PauseResumeFlags(s1);
    StartSucceeds(s2, ["b.mp3"], false, []);
    StartPost(s2, ["b.mp3"], false, []);
    StartLeakFree(s2, ["b.mp3"], false, []);
    var s3 := Start(s2, ["b.mp3"], false, []).0;
    forall h | h in s3.engine.open ensures h.path == "b.mp3" {
      var k :| 0 <= k < |s3.files| && s3.files[k] == h;
    }
  }

  /**
   * The second of three paths cannot be opened: `start` fails, nothing is
   * attached or playing, and the handles of the first and third paths stay open.
   */
  lemma MiddleOpenFails()
    ensures var (r, ok) := Start(Initial({"b.mp3"}), ["a.mp3", "b.mp3", "c.mp3"], false, []);
      && !ok && !IsPlaying(r) && !r.engine.attached && r.engine.items == []
      && (exists h :: h in r.engine.open && h.path == "a.mp3")
      && (exists h :: h in r.engine.open && h.path == "c.mp3")
  {
    var s0 := Initial({"b.mp3"});
    var paths := ["a.mp3", "b.mp3", "c.mp3"];
    InitialInv({"b.mp3"});
    StartSucceeds(s0, paths, false, []);
    assert paths[1] in s0.engine.broken;
    StartFailureLeaks(s0, paths, false, []);
    assert "a.mp3" in paths && "a.mp3" !in s0.engine.broken;
    assert "c.mp3" in paths && "c.mp3" !in s0.engine.broken;
  }
}
