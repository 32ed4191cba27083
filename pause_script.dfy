/**
 * The older pause script (`PauseScript`): a performed pause input toggles
 * between paused, with time stopped, and running at scale 1. Unlike the
 * pause menu it records no earlier time scale, and `LoadMainMenu` restarts
 * time without clearing the paused flag. The static `IsPaused` and the
 * global `Time.timeScale` are fields of the class; the menu object, the
 * Unity events, the scene load and quitting are left out.
 */
module PausePlayer {

  datatype State = State(isPaused: bool, timeScale: real)

  /** `Pause`: time stops and the game is paused. */
  function PauseStep(s: State): (r: State)
    ensures r.isPaused && r.timeScale == 0.0
  {
    State(true, 0.0)
  }

  /** `Resume`: time runs at scale 1, whatever it was before, and the game is not paused. */
  function ResumeStep(s: State): (r: State)
    ensures !r.isPaused && r.timeScale == 1.0
  {
    State(false, 1.0)
  }

  /** `TogglePause`: resumes when paused, pauses otherwise. */
  function ToggleStep(s: State): (r: State)
    ensures r.isPaused == !s.isPaused
    ensures r.timeScale == if s.isPaused then 1.0 else 0.0
  {
    if s.isPaused then ResumeStep(s) else PauseStep(s)
  }

  /** `OnPauseAction`: only the performed phase toggles. */
  function OnPauseActionStep(s: State, performed: bool): (r: State)
    ensures performed ==> r == ToggleStep(s)
    ensures !performed ==> r == s
  {
    if performed then ToggleStep(s) else s
  }

  /** `LoadMainMenu`: time runs at scale 1 and the paused flag is left as it was. */
  function LoadMainMenuStep(s: State): (r: State)
    ensures r.timeScale == 1.0 && r.isPaused == s.isPaused
  {
    s.(timeScale := 1.0)
  }

  /**
   * Two toggles from a running game end running at scale 1: a custom time
   * scale from before the pause is lost.
   */
  lemma ToggleTwiceResetsTimeScale(s: State)
    requires !s.isPaused
    ensures ToggleStep(ToggleStep(s)) == State(false, 1.0)
  {
  }

  /**
   * Leaving for the main menu while paused leaves the flag set, so the
   * next performed pause input resumes instead of pausing.
   */
  lemma MenuWhilePausedNextPressResumes(s: State)
    requires s.isPaused
    ensures LoadMainMenuStep(s).isPaused
    ensures OnPauseActionStep(LoadMainMenuStep(s), true) == State(false, 1.0)
  {
  }

  class PauseScript {
    var isPaused: bool
    /** The global `Time.timeScale`. */
    var timeScale: real

    function Model(): State
      reads this
    {
      State(isPaused, timeScale)
    }

    constructor (currentTimeScale: real)
      ensures Model() == State(false, currentTimeScale)
    {
      isPaused, timeScale := false, currentTimeScale;
    }

    method OnPauseAction(performed: bool)
      modifies this
      ensures Model() == OnPauseActionStep(old(Model()), performed)
    {
      if performed {
        TogglePause();
      }
    }

    method TogglePause()
      modifies this
      ensures Model() == ToggleStep(old(Model()))
    {
      if isPaused {
        Resume();
      } else {
        Pause();
      }
    }

    method Pause()
      modifies this
      ensures Model() == PauseStep(old(Model()))
    {
      timeScale := 0.0;
      isPaused := true;
    }

    method Resume()
      modifies this
      ensures Model() == ResumeStep(old(Model()))
    {
      timeScale := 1.0;
      isPaused := false;
    }

    method LoadMainMenu()
      modifies this
      ensures Model() == LoadMainMenuStep(old(Model()))
    {
      timeScale := 1.0;
    }
  }
}
