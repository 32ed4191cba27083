/**
 * The pause menu (`PauseMenuManager`): pausing records the current time
 * scale and stops time, resuming puts the recorded scale back, and both are
 * forwarded to every registered ground and flying enemy. Scene loads and the
 * quit button force a resume; losing focus or the application being paused
 * pauses when `pauseOnFocusLoss` is set. The global `Time.timeScale` is a
 * field of the class; the panel, buttons, cursor and the singleton
 * bookkeeping are display or Unity wiring and are left out.
 */
module PauseMenu {

  import GroundPatrol
  import FlyingPatrol

  datatype State = State(isPaused: bool, timeScaleBeforePause: real, timeScale: real)

  /** A fresh manager over a game running at `timeScale`. */
  function Initial(timeScale: real): State
  {
    State(false, 1.0, timeScale)
  }

  /**
   * `PauseGame`: when already paused nothing changes; otherwise the current
   * scale is recorded and time stops.
   */
  function PauseStep(s: State): (r: State)
    ensures s.isPaused ==> r == s
    ensures !s.isPaused ==> r.isPaused && r.timeScale == 0.0 && r.timeScaleBeforePause == s.timeScale
    ensures r.isPaused
  {
    if s.isPaused then s else State(true, s.timeScale, 0.0)
  }

  /**
   * `ResumeGame`: when not paused nothing changes; otherwise the recorded
   * scale is restored.
   */
  function ResumeStep(s: State): (r: State)
    ensures !s.isPaused ==> r == s
    ensures s.isPaused ==> r == State(false, s.timeScaleBeforePause, s.timeScaleBeforePause)
    ensures !r.isPaused
  {
    if !s.isPaused then s else s.(isPaused := false, timeScale := s.timeScaleBeforePause)
  }

  /** Pausing twice is pausing once, and resuming twice is resuming once. */
  lemma PauseAndResumeAreIdempotent(s: State)
    ensures PauseStep(PauseStep(s)) == PauseStep(s)
    ensures ResumeStep(ResumeStep(s)) == ResumeStep(s)
  {
  }

  /** `TogglePause`: resumes when paused, pauses otherwise; the paused flag always flips. */
  function ToggleStep(s: State): (r: State)
    ensures s.isPaused ==> r == ResumeStep(s)
    ensures !s.isPaused ==> r == PauseStep(s)
    ensures r.isPaused == !s.isPaused
  {
    if s.isPaused then ResumeStep(s) else PauseStep(s)
  }

  /** `OnSceneLoaded` and `QuitToMainMenu`: a paused game is resumed, so the game never stays paused. */
  function ForceResumeStep(s: State): (r: State)
    ensures !r.isPaused
    ensures s.isPaused ==> r.timeScale == s.timeScaleBeforePause
    ensures !s.isPaused ==> r == s
  {
    if s.isPaused then ResumeStep(s) else s
  }

  /**
   * `OnApplicationFocus` and `OnApplicationPause`: a loss (`lost`, that is
   * no focus or the application paused) pauses only when enabled and not
   * already paused; regaining focus never resumes.
   */
  function FocusLossStep(pauseOnFocusLoss: bool, lost: bool, s: State): (r: State)
    ensures pauseOnFocusLoss && lost && !s.isPaused ==> r == PauseStep(s)
    ensures !(pauseOnFocusLoss && lost && !s.isPaused) ==> r == s
    ensures s.isPaused ==> r == s
  {
    if pauseOnFocusLoss && lost && !s.isPaused then PauseStep(s) else s
  }

  /**
   * Pausing then resuming a running game gives back its time scale, whatever
   * it was, and leaves the game running.
   */
  lemma PauseResumeRestoresTimeScale(s: State)
    requires !s.isPaused
    ensures ResumeStep(PauseStep(s)).timeScale == s.timeScale
    ensures !ResumeStep(PauseStep(s)).isPaused
    ensures ResumeStep(PauseStep(s)) == ToggleStep(ToggleStep(s))
  {
  }

  /** `n` presses of the toggle. */
  function Toggles(s: State, n: nat): State
    decreases n
  {
    if n == 0 then s else Toggles(ToggleStep(s), n - 1)
  }

  /**
   * Toggling a running game: after an odd number of toggles it is paused
   * with time stopped, after an even number it runs again at its own time
   * scale (so a game at scale 1 ends at scale 1).
   */
  lemma {:induction false} TogglesAlternate(s: State, n: nat)
    requires !s.isPaused
    decreases n
    ensures Toggles(s, n).isPaused <==> n % 2 == 1
    ensures Toggles(s, n).timeScale == if n % 2 == 1 then 0.0 else s.timeScale
  {
    if n >= 2 {
      var s2 := ToggleStep(ToggleStep(s));
      assert Toggles(s, n) == Toggles(ToggleStep(s), n - 1) == Toggles(s2, n - 2);
      TogglesAlternate(s2, n - 2);
    } else if n == 1 {
      assert Toggles(s, 1) == Toggles(ToggleStep(s), 0);
    }
  }

  /** The ground enemies a list refers to. */
  function LivePatrols(list: seq<GroundPatrol.PatrolScript?>): set<GroundPatrol.PatrolScript>
  {
    set p: GroundPatrol.PatrolScript | p in list
  }

  /** The flying enemies a list refers to. */
  function LiveFlyers(list: seq<FlyingPatrol.FlyingEnemyAI?>): set<FlyingPatrol.FlyingEnemyAI>
  {
    set f: FlyingPatrol.FlyingEnemyAI | f in list
  }

  class PauseMenuManager {
    const pauseOnFocusLoss: bool
    var isPaused: bool
    var timeScaleBeforePause: real
    /** The global `Time.timeScale`. */
    var timeScale: real
    var patrolScripts: seq<GroundPatrol.PatrolScript?>
    var flyingEnemyAIs: seq<FlyingPatrol.FlyingEnemyAI?>

    function Model(): State
      reads this
    {
      State(isPaused, timeScaleBeforePause, timeScale)
    }

    function Enemies(): set<object>
      reads this
    {
      LivePatrols(patrolScripts) + LiveFlyers(flyingEnemyAIs)
    }

    function IsPaused(): bool
      reads this
    {
      isPaused
    }

    constructor (focusLossPauses: bool, currentTimeScale: real)
      ensures pauseOnFocusLoss == focusLossPauses && Model() == Initial(currentTimeScale)
      ensures patrolScripts == [] && flyingEnemyAIs == []
    {
      pauseOnFocusLoss := focusLossPauses;
      isPaused, timeScaleBeforePause, timeScale := false, 1.0, currentTimeScale;
      patrolScripts, flyingEnemyAIs := [], [];
    }

    /** `Start` and `RefreshEnemyReferences`: the enemies found in the scene are registered. */
    method Start(patrols: seq<GroundPatrol.PatrolScript?>, flyers: seq<FlyingPatrol.FlyingEnemyAI?>)
      modifies this
      ensures Model() == old(Model())
      ensures patrolScripts == patrols && flyingEnemyAIs == flyers
    {
      RefreshEnemyReferences(patrols, flyers);
    }

    method RefreshEnemyReferences(patrols: seq<GroundPatrol.PatrolScript?>, flyers: seq<FlyingPatrol.FlyingEnemyAI?>)
      modifies this
      ensures Model() == old(Model())
      ensures patrolScripts == patrols && flyingEnemyAIs == flyers
    {
      patrolScripts := patrols;
      flyingEnemyAIs := flyers;
    }

    /** `Update`: the escape key toggles the pause. */
    method Update(escapePressed: bool)
      modifies this, Enemies()
      ensures Model() == (if escapePressed then ToggleStep(old(Model())) else old(Model()))
      ensures patrolScripts == old(patrolScripts) && flyingEnemyAIs == old(flyingEnemyAIs)
      ensures forall p :: p in patrolScripts && p != null ==>
                p.Model() == if escapePressed then old(p.Model()).(isPaused := !old(isPaused)) else old(p.Model())
      ensures forall f :: f in flyingEnemyAIs && f != null ==>
                f.Model() == if !escapePressed then old(f.Model())
                             else if old(isPaused) then FlyingPatrol.ResumeStep(old(f.Model()))
                             else FlyingPatrol.PauseStep(old(f.Model()))
    {
      if escapePressed {
        TogglePause();
      }
    }

    method TogglePause()
      modifies this, Enemies()
      ensures Model() == ToggleStep(old(Model()))
      ensures patrolScripts == old(patrolScripts) && flyingEnemyAIs == old(flyingEnemyAIs)
      ensures forall p :: p in patrolScripts && p != null ==>
                p.Model() == old(p.Model()).(isPaused := !old(isPaused))
      ensures forall f :: f in flyingEnemyAIs && f != null ==>
                f.Model() == if old(isPaused) then FlyingPatrol.ResumeStep(old(f.Model()))
                             else FlyingPatrol.PauseStep(old(f.Model()))
    {
      if isPaused {
        ResumeGame();
      } else {
        PauseGame();
      }
    }

    /**
     * A running game is paused, and every registered enemy with it; a
     * paused game is left as it is, enemies included.
     */
    method PauseGame()
      modifies this, Enemies()
      ensures Model() == PauseStep(old(Model()))
      ensures patrolScripts == old(patrolScripts) && flyingEnemyAIs == old(flyingEnemyAIs)
      ensures forall p :: p in patrolScripts && p != null ==>
                p.Model() == if old(isPaused) then old(p.Model()) else old(p.Model()).(isPaused := true)
      ensures forall f :: f in flyingEnemyAIs && f != null ==>
                f.Model() == if old(isPaused) then old(f.Model()) else FlyingPatrol.PauseStep(old(f.Model()))
    {
      if isPaused {
        return;
      }
      isPaused := true;
      timeScaleBeforePause := timeScale;
      timeScale := 0.0;
      PauseEnemyAI();
    }

    /**
     * A paused game is resumed at its recorded scale, and every registered
     * enemy with it; a running game is left as it is, enemies included.
     */
    method ResumeGame()
      modifies this, Enemies()
      ensures Model() == ResumeStep(old(Model()))
      ensures patrolScripts == old(patrolScripts) && flyingEnemyAIs == old(flyingEnemyAIs)
      ensures forall p :: p in patrolScripts && p != null ==>
                p.Model() == if old(isPaused) then old(p.Model()).(isPaused := false) else old(p.Model())
      ensures forall f :: f in flyingEnemyAIs && f != null ==>
                f.Model() == if old(isPaused) then FlyingPatrol.ResumeStep(old(f.Model())) else old(f.Model())
    {
      if !isPaused {
        return;
      }
      isPaused := false;
      timeScale := timeScaleBeforePause;
      ResumeEnemyAI();
    }

    /** Every non-null ground and flying enemy is paused; null entries are skipped. */
    method PauseEnemyAI()
      modifies Enemies()
      ensures forall p :: p in patrolScripts && p != null ==> p.Model() == old(p.Model()).(isPaused := true)
      ensures forall f :: f in flyingEnemyAIs && f != null ==> f.Model() == FlyingPatrol.PauseStep(old(f.Model()))
    {
      var i := 0;
      while i < |patrolScripts|
        invariant 0 <= i <= |patrolScripts|
        invariant forall p :: p in patrolScripts && p != null ==>
                    p.Model() == if p in patrolScripts[..i] then old(p.Model()).(isPaused := true) else old(p.Model())
        invariant forall f :: f in flyingEnemyAIs && f != null ==> f.Model() == old(f.Model())
      {
        assert patrolScripts[..i + 1] == patrolScripts[..i] + [patrolScripts[i]];
        if patrolScripts[i] != null {
          patrolScripts[i].PauseAI();
        }
        i := i + 1;
      }
      assert patrolScripts[..i] == patrolScripts;
      var j := 0;
      while j < |flyingEnemyAIs|
        invariant 0 <= j <= |flyingEnemyAIs|
        invariant forall p :: p in patrolScripts && p != null ==> p.Model() == old(p.Model()).(isPaused := true)
        invariant forall f :: f in flyingEnemyAIs && f != null ==>
                    f.Model() == if f in flyingEnemyAIs[..j] then FlyingPatrol.PauseStep(old(f.Model())) else old(f.Model())
      {
        assert flyingEnemyAIs[..j + 1] == flyingEnemyAIs[..j] + [flyingEnemyAIs[j]];
        if flyingEnemyAIs[j] != null {
          flyingEnemyAIs[j].PauseAI();
        }
        j := j + 1;
      }
      assert flyingEnemyAIs[..j] == flyingEnemyAIs;
    }

    /** Every non-null ground and flying enemy is resumed; null entries are skipped. */
    method ResumeEnemyAI()
      modifies Enemies()
      ensures forall p :: p in patrolScripts && p != null ==> p.Model() == old(p.Model()).(isPaused := false)
      ensures forall f :: f in flyingEnemyAIs && f != null ==> f.Model() == FlyingPatrol.ResumeStep(old(f.Model()))
    {
      var i := 0;
      while i < |patrolScripts|
        invariant 0 <= i <= |patrolScripts|
        invariant forall p :: p in patrolScripts && p != null ==>
                    p.Model() == if p in patrolScripts[..i] then old(p.Model()).(isPaused := false) else old(p.Model())
        invariant forall f :: f in flyingEnemyAIs && f != null ==> f.Model() == old(f.Model())
      {
        assert patrolScripts[..i + 1] == patrolScripts[..i] + [patrolScripts[i]];
        if patrolScripts[i] != null {
          patrolScripts[i].ResumeAI();
        }
        i := i + 1;
      }
      assert patrolScripts[..i] == patrolScripts;
      var j := 0;
      while j < |flyingEnemyAIs|
        invariant 0 <= j <= |flyingEnemyAIs|
        invariant forall p :: p in patrolScripts && p != null ==> p.Model() == old(p.Model()).(isPaused := false)
        invariant forall f :: f in flyingEnemyAIs && f != null ==>
                    f.Model() == if f in flyingEnemyAIs[..j] then FlyingPatrol.ResumeStep(old(f.Model())) else old(f.Model())
      {
        assert flyingEnemyAIs[..j + 1] == flyingEnemyAIs[..j] + [flyingEnemyAIs[j]];
        if flyingEnemyAIs[j] != null {
          flyingEnemyAIs[j].ResumeAI();
        }
        j := j + 1;
      }
      assert flyingEnemyAIs[..j] == flyingEnemyAIs;
    }

    /** `OnSceneLoaded`: the new scene's enemies are registered, then a paused game is resumed. */
    method OnSceneLoaded(patrols: seq<GroundPatrol.PatrolScript?>, flyers: seq<FlyingPatrol.FlyingEnemyAI?>)
      modifies this, LivePatrols(patrols), LiveFlyers(flyers)
      ensures Model() == ForceResumeStep(old(Model()))
      ensures patrolScripts == patrols && flyingEnemyAIs == flyers
      ensures forall p :: p in patrols && p != null ==>
                p.Model() == if old(isPaused) then old(p.Model()).(isPaused := false) else old(p.Model())
      ensures forall f :: f in flyers && f != null ==>
                f.Model() == if old(isPaused) then FlyingPatrol.ResumeStep(old(f.Model())) else old(f.Model())
    {
      RefreshEnemyReferences(patrols, flyers);
      if isPaused {
        ResumeGame();
      }
    }

    /** `QuitToMainMenu`: a paused game is resumed before leaving. */
    method QuitToMainMenu()
      modifies this, Enemies()
      ensures Model() == ForceResumeStep(old(Model()))
      ensures patrolScripts == old(patrolScripts) && flyingEnemyAIs == old(flyingEnemyAIs)
      ensures forall p :: p in patrolScripts && p != null ==>
                p.Model() == if old(isPaused) then old(p.Model()).(isPaused := false) else old(p.Model())
      ensures forall f :: f in flyingEnemyAIs && f != null ==>
                f.Model() == if old(isPaused) then FlyingPatrol.ResumeStep(old(f.Model())) else old(f.Model())
    {
      if isPaused {
        ResumeGame();
      }
    }

    method OnApplicationFocus(hasFocus: bool)
      modifies this, Enemies()
      ensures Model() == FocusLossStep(pauseOnFocusLoss, !hasFocus, old(Model()))
      ensures patrolScripts == old(patrolScripts) && flyingEnemyAIs == old(flyingEnemyAIs)
      ensures forall p :: p in patrolScripts && p != null ==>
                p.Model() == if isPaused && !old(isPaused) then old(p.Model()).(isPaused := true) else old(p.Model())
      ensures forall f :: f in flyingEnemyAIs && f != null ==>
                f.Model() == if isPaused && !old(isPaused) then FlyingPatrol.PauseStep(old(f.Model())) else old(f.Model())
    {
      if pauseOnFocusLoss && !hasFocus && !isPaused {
        PauseGame();
      }
    }

    method OnApplicationPause(pauseStatus: bool)
      modifies this, Enemies()
      ensures Model() == FocusLossStep(pauseOnFocusLoss, pauseStatus, old(Model()))
      ensures patrolScripts == old(patrolScripts) && flyingEnemyAIs == old(flyingEnemyAIs)
      ensures forall p :: p in patrolScripts && p != null ==>
                p.Model() == if isPaused && !old(isPaused) then old(p.Model()).(isPaused := true) else old(p.Model())
      ensures forall f :: f in flyingEnemyAIs && f != null ==>
                f.Model() == if isPaused && !old(isPaused) then FlyingPatrol.PauseStep(old(f.Model())) else old(f.Model())
    {
      if pauseOnFocusLoss && pauseStatus && !isPaused {
        PauseGame();
      }
    }
  }
}
