/**
 * The game manager (`GameManager`): a pause flag that stops time and
 * disables input, and a one-shot initialisation that makes sure an input
 * manager exists. The input manager is reduced to whether it exists and
 * whether its input is enabled (`None` when there is none); how a newly
 * found or created one starts is a parameter, since `InputManager` is not
 * part of this model. Spawning the player, the camera, the scene reload and the events
 * are left out.
 */
module Game {

  import opened Common

  datatype State = State(isGamePaused: bool, isGameInitialized: bool, timeScale: real, input: Option<bool>)

  /**
   * `PauseGame(pause)`: nothing changes when the flag already says so;
   * otherwise the flag is set, time stops (scale 0) or runs (scale 1), and
   * an existing input manager is disabled or enabled to match.
   */
  function PauseGameStep(s: State, pause: bool): (r: State)
    ensures s.isGamePaused == pause ==> r == s
    ensures s.isGamePaused != pause ==>
              && r.isGamePaused == pause
              && r.timeScale == (if pause then 0.0 else 1.0)
              && r.input == (if s.input.None? then None else Some(!pause))
              && r.isGameInitialized == s.isGameInitialized
    ensures r.isGamePaused == pause
  {
    if s.isGamePaused == pause then s
    else s.(isGamePaused := pause, timeScale := if pause then 0.0 else 1.0,
            input := if s.input.None? then None else Some(!pause))
  }

  /** `TogglePause`: the pause flag is negated. */
  function TogglePauseStep(s: State): (r: State)
    ensures r == PauseGameStep(s, !s.isGamePaused)
    ensures r.isGamePaused == !s.isGamePaused
  {
    PauseGameStep(s, !s.isGamePaused)
  }

  /**
   * `InitializeGame`: runs once; afterwards an input manager exists (the
   * one already there, or one found or created starting as `inputOnCreate`
   * says) and the game is initialised. A second call does nothing.
   */
  function InitializeStep(s: State, inputOnCreate: bool): (r: State)
    ensures s.isGameInitialized ==> r == s
    ensures !s.isGameInitialized ==>
              r == s.(isGameInitialized := true, input := if s.input.None? then Some(inputOnCreate) else s.input)
    ensures r.isGameInitialized
  {
    if s.isGameInitialized then s
    else s.(isGameInitialized := true, input := if s.input.None? then Some(inputOnCreate) else s.input)
  }

  /** `OnApplicationFocus`: when enabled, losing focus pauses and regaining it unpauses. */
  function FocusStep(s: State, pauseOnApplicationFocus: bool, hasFocus: bool): (r: State)
    ensures pauseOnApplicationFocus ==> r == PauseGameStep(s, !hasFocus)
    ensures !pauseOnApplicationFocus ==> r == s
  {
    if pauseOnApplicationFocus then PauseGameStep(s, !hasFocus) else s
  }

  /** Initialisation happens at most once: a second call, whatever its argument, changes nothing. */
  lemma InitializeOnce(s: State, a: bool, b: bool)
    ensures InitializeStep(InitializeStep(s, a), b) == InitializeStep(s, a)
  {
  }

  /** Setting the pause flag twice to the same value is setting it once. */
  lemma PauseGameIdempotent(s: State, pause: bool)
    ensures PauseGameStep(PauseGameStep(s, pause), pause) == PauseGameStep(s, pause)
  {
  }

  /**
   * Two toggles from a running game end running at scale 1 with any input
   * manager enabled; a custom time scale from before the pause is lost.
   */
  lemma ToggleTwiceRuns(s: State)
    requires !s.isGamePaused
    ensures var r := TogglePauseStep(TogglePauseStep(s));
            !r.isGamePaused && r.timeScale == 1.0 && r.input == (if s.input.None? then None else Some(true))
  {
  }

  /**
   * With focus handling on, losing and then regaining focus leaves the game
   * running at scale 1 even if it had been paused before focus was lost.
   */
  lemma RegainingFocusUnpauses(s: State)
    ensures var r := FocusStep(FocusStep(s, true, false), true, true);
            !r.isGamePaused && r.timeScale == 1.0
  {
  }

  class GameManager {
    const initializeOnStart: bool
    const pauseOnApplicationFocus: bool
    var isGamePaused: bool
    var isGameInitialized: bool
    /** The global `Time.timeScale`. */
    var timeScale: real
    var input: Option<bool>

    function Model(): State
      reads this
    {
      State(isGamePaused, isGameInitialized, timeScale, input)
    }

    /** `input` is the assigned input manager's enable state, if one is assigned. */
    constructor (initOnStart: bool, focusPauses: bool, currentTimeScale: real, attached: Option<bool>)
      ensures initializeOnStart == initOnStart && pauseOnApplicationFocus == focusPauses
      ensures Model() == State(false, false, currentTimeScale, attached)
    {
      initializeOnStart, pauseOnApplicationFocus := initOnStart, focusPauses;
      isGamePaused, isGameInitialized, timeScale, input := false, false, currentTimeScale, attached;
    }

    method Start(inputOnCreate: bool)
      modifies this
      ensures Model() == if initializeOnStart then InitializeStep(old(Model()), inputOnCreate) else old(Model())
    {
      if initializeOnStart {
        InitializeGame(inputOnCreate);
      }
    }

    method OnApplicationFocus(hasFocus: bool)
      modifies this
      ensures Model() == FocusStep(old(Model()), pauseOnApplicationFocus, hasFocus)
    {
      if pauseOnApplicationFocus {
        PauseGame(!hasFocus);
      }
    }

    method InitializeGame(inputOnCreate: bool)
      modifies this
      ensures Model() == InitializeStep(old(Model()), inputOnCreate)
    {
      if isGameInitialized {
        return;
      }
      if input.None? {
        input := Some(inputOnCreate);
      }
      isGameInitialized := true;
    }

    method PauseGame(pause: bool)
      modifies this
      ensures Model() == PauseGameStep(old(Model()), pause)
    {
      if isGamePaused == pause {
        return;
      }
      isGamePaused := pause;
      timeScale := if pause then 0.0 else 1.0;
      if input.Some? {
        input := Some(!pause);
      }
    }

    method TogglePause()
      modifies this
      ensures Model() == TogglePauseStep(old(Model()))
    {
      PauseGame(!isGamePaused);
    }

    /** `RestartGame`: time runs at scale 1 before the scene is reloaded; the pause flag is not cleared. */
    method RestartGame()
      modifies this
      ensures Model() == old(Model()).(timeScale := 1.0)
    {
      timeScale := 1.0;
    }
  }
}
