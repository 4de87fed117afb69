/**
 * The single-file counter page (counter-app/script.js): a count with a floor
 * at zero, an auto-increment timer, and a 15-second game whose goal is to
 * reach 10. Every handler is a step on one state value here; the class in
 * module CounterScript below holds the same state in fields and is proved
 * to take exactly these steps.
 *
 * A click on a disabled or hidden button dispatches no event, so each
 * `...Click` step first checks that the button can be clicked and then runs
 * the source's listener (`...Handler`). Key presses have no such guard.
 */
module CounterRules {
  import opened Wrappers

  const TargetCount := 10
  const GameDuration := 15

  /** What the game message element shows. */
  datatype GameMessage =
    | NoMessage
    | Challenge          // "Reach 10 in 15 seconds!"
    | Countdown(timeLeft: int)
    | Won
    | TimeUp(reached: int)
    | GameReset

  datatype Key = ArrowUp | Plus | ArrowRight | ArrowDown | Minus | ArrowLeft | OtherKey

  datatype CounterState = CounterState(
    count: int,
    gameActive: bool,
    timeLeft: int,
    autoRunning: bool,       // autoInterval is set
    increaseDisabled: bool,
    decreaseDisabled: bool,
    resetDisabled: bool,
    gameButtonDisabled: bool,
    resetVisible: bool,
    message: GameMessage,
    pendingRestores: nat)    // endGame's 3-second timeouts not yet fired

  /**
   * The page's standing invariant: the reset button is shown exactly when the
   * count is not 0; a running game has between 1 and 15 seconds left, its
   * own button disabled, reset disabled and increase/decrease enabled; with
   * no game running, reset and the game button are enabled.
   */
  predicate Inv(s: CounterState) {
    && s.resetVisible == (s.count != 0)
    && (s.gameActive ==>
         && 1 <= s.timeLeft <= GameDuration
         && s.gameButtonDisabled && s.resetDisabled
         && !s.increaseDisabled && !s.decreaseDisabled)
    && (!s.gameActive ==> !s.resetDisabled && !s.gameButtonDisabled)
  }

  /** updateCountDisplay, through toggleResetButton: the reset button is shown iff the count is not 0. */
  function UpdateCountDisplay(s: CounterState): (t: CounterState)
    ensures t.resetVisible <==> s.count != 0
    ensures t.(resetVisible := s.resetVisible) == s
  {
    s.(resetVisible := s.count != 0)
  }

  /** enableButtons(state): increase and decrease follow `state`, reset the opposite. */
  function EnableButtons(s: CounterState, state: bool): (t: CounterState)
    ensures !t.increaseDisabled == state && !t.decreaseDisabled == state && t.resetDisabled == state
    ensures t.(increaseDisabled := s.increaseDisabled, decreaseDisabled := s.decreaseDisabled,
               resetDisabled := s.resetDisabled) == s
  {
    s.(increaseDisabled := !state, decreaseDisabled := !state, resetDisabled := state)
  }

  /** The page after the script has run and the load handler has read the saved count. */
  function Initial(saved: Option<int>): (s: CounterState)
    ensures Inv(s) && !s.gameActive && !s.autoRunning && s.pendingRestores == 0
    ensures s.count == (if saved.Some? then saved.value else 0)
    ensures s.timeLeft == GameDuration && s.message == NoMessage
    ensures !s.increaseDisabled && !s.decreaseDisabled
  {
    var count := if saved.Some? then saved.value else 0;
    UpdateCountDisplay(CounterState(count, false, GameDuration, false, false, false, false, false, true, NoMessage, 0))
  }

  /** The reset listener: a declined confirm changes nothing; a confirmed one zeroes the count, stops auto mode and ends a running game. */
  function ResetHandler(s: CounterState, confirmed: bool): (t: CounterState)
    ensures !confirmed ==> t == s
    ensures confirmed ==> t.count == 0 && !t.autoRunning && !t.gameActive && !t.resetVisible
    ensures confirmed && s.gameActive ==> !t.gameButtonDisabled && t.message == GameReset
    ensures confirmed && !s.gameActive ==> t.message == s.message && t.gameButtonDisabled == s.gameButtonDisabled
    ensures confirmed ==>
      && t.timeLeft == s.timeLeft && t.pendingRestores == s.pendingRestores
      && t.increaseDisabled == s.increaseDisabled && t.decreaseDisabled == s.decreaseDisabled
      && t.resetDisabled == s.resetDisabled
  {
    if !confirmed then s
    else
      var t := UpdateCountDisplay(s.(count := 0)).(autoRunning := false);
      if s.gameActive then t.(gameActive := false, gameButtonDisabled := false, message := GameReset) else t
  }

  /** A click on the reset button: none while it is disabled or hidden, otherwise its listener. */
  function ResetClick(s: CounterState, confirmed: bool): (t: CounterState)
    ensures s.resetDisabled || !s.resetVisible ==> t == s
    ensures !s.resetDisabled && s.resetVisible ==> t == ResetHandler(s, confirmed)
  {
    if s.resetDisabled || !s.resetVisible then s else ResetHandler(s, confirmed)
  }

  /** One manual increase (button or key): during a game only below the target. */
  function Increase(s: CounterState): (t: CounterState)
    ensures !s.gameActive || s.count < TargetCount ==> t == UpdateCountDisplay(s.(count := s.count + 1))
    ensures s.gameActive && s.count >= TargetCount ==> t == s
  {
    if !s.gameActive || s.count < TargetCount then UpdateCountDisplay(s.(count := s.count + 1)) else s
  }

  /** One manual decrease (button or key): subtracts one only from a positive count. */
  function Decrease(s: CounterState): (t: CounterState)
    ensures s.count > 0 ==> t == UpdateCountDisplay(s.(count := s.count - 1))
    ensures s.count <= 0 ==> t.count == s.count
    ensures s.count <= 0 ==> t == (if s.gameActive then s else UpdateCountDisplay(s))
  {
    if !s.gameActive || s.count > 0 then
      var t := if s.count > 0 then s.(count := s.count - 1) else s;
      UpdateCountDisplay(t)
    else s
  }

  /** A click on the increase button: none while it is disabled. */
  function IncreaseClick(s: CounterState): (t: CounterState)
    ensures s.increaseDisabled ==> t == s
    ensures !s.increaseDisabled ==> t == Increase(s)
  {
    if s.increaseDisabled then s else Increase(s)
  }

  /** A click on the decrease button: none while it is disabled. */
  function DecreaseClick(s: CounterState): (t: CounterState)
    ensures s.decreaseDisabled ==> t == s
    ensures !s.decreaseDisabled ==> t == Decrease(s)
  {
    if s.decreaseDisabled then s else Decrease(s)
  }

  /** The keydown listener: up, "+" and right increase; down, "-" and left decrease; other keys do nothing. */
  function KeyDown(s: CounterState, key: Key): (t: CounterState)
    ensures key == ArrowUp || key == Plus || key == ArrowRight ==> t == Increase(s)
    ensures key == ArrowDown || key == Minus || key == ArrowLeft ==> t == Decrease(s)
    ensures key == OtherKey ==> t == s
  {
    match key
    case ArrowUp | Plus | ArrowRight => Increase(s)
    case ArrowDown | Minus | ArrowLeft => Decrease(s)
    case OtherKey => s
  }

  /** The count's double-click listener: a confirmed reset to 0. */
  function DoubleClick(s: CounterState, confirmed: bool): (t: CounterState)
    ensures confirmed ==> t.count == 0 && !t.resetVisible
    ensures confirmed ==> t == s.(count := 0, resetVisible := false)
    ensures !confirmed ==> t == s
  {
    if confirmed then UpdateCountDisplay(s.(count := 0)) else s
  }

  /** The auto button starts or stops the one-second auto increment. */
  function AutoClick(s: CounterState): (t: CounterState)
    ensures t == s.(autoRunning := !s.autoRunning)
  {
    s.(autoRunning := !s.autoRunning)
  }

  /** One firing of the auto interval: plus one, with no game or target guard. */
  function AutoTick(s: CounterState): (t: CounterState)
    requires s.autoRunning
    ensures t.count == s.count + 1
    ensures t == s.(count := s.count + 1, resetVisible := s.count + 1 != 0)
  {
    UpdateCountDisplay(s.(count := s.count + 1))
  }

  /** The game button's listener: no-op during a game; otherwise count 0, 15 seconds, buttons set for play. */
  function GameHandler(s: CounterState): (t: CounterState)
    ensures s.gameActive ==> t == s
    ensures !s.gameActive ==>
      && t.gameActive && t.count == 0 && t.timeLeft == GameDuration
      && t.gameButtonDisabled && !t.increaseDisabled && !t.decreaseDisabled && t.resetDisabled
      && t.message == Challenge && !t.resetVisible
      && t.autoRunning == s.autoRunning && t.pendingRestores == s.pendingRestores
  {
    if s.gameActive then s
    else
      var t := UpdateCountDisplay(s.(count := 0));
      EnableButtons(t.(gameActive := true, timeLeft := GameDuration, message := Challenge, gameButtonDisabled := true), true)
  }

  /** A click on the game button: none while it is disabled. */
  function GameClick(s: CounterState): (t: CounterState)
    ensures s.gameButtonDisabled ==> t == s
    ensures !s.gameButtonDisabled ==> t == GameHandler(s)
  {
    if s.gameButtonDisabled then s else GameHandler(s)
  }

  /** endGame: the game stops, its button is enabled, increase/decrease are disabled and reset enabled; a restore is scheduled. */
  function EndGame(s: CounterState, won: bool): (t: CounterState)
    ensures !t.gameActive && !t.gameButtonDisabled
    ensures t.increaseDisabled && t.decreaseDisabled && !t.resetDisabled
    ensures t.message == (if won then Won else TimeUp(s.count))
    ensures t.count == s.count && t.timeLeft == s.timeLeft && t.pendingRestores == s.pendingRestores + 1
    ensures t.autoRunning == s.autoRunning && t.resetVisible == s.resetVisible
  {
    EnableButtons(s.(gameActive := false, gameButtonDisabled := false), false)
      .(message := if won then Won else TimeUp(s.count), pendingRestores := s.pendingRestores + 1)
  }

  /** One firing of the game interval: a second less, then a win is checked before a time-out. */
  function GameTick(s: CounterState): (t: CounterState)
    requires s.gameActive
    ensures s.count >= TargetCount ==> t == EndGame(s.(timeLeft := s.timeLeft - 1, message := Countdown(s.timeLeft - 1)), true)
    ensures s.count < TargetCount && s.timeLeft - 1 <= 0 ==> !t.gameActive && t.message == TimeUp(s.count)
    ensures s.count < TargetCount && s.timeLeft - 1 <= 0 ==>
      t == EndGame(s.(timeLeft := s.timeLeft - 1, message := Countdown(s.timeLeft - 1)), false)
    ensures s.count < TargetCount && s.timeLeft - 1 > 0 ==>
      t == s.(timeLeft := s.timeLeft - 1, message := Countdown(s.timeLeft - 1))
  {
    var t := s.(timeLeft := s.timeLeft - 1, message := Countdown(s.timeLeft - 1));
    if t.count >= TargetCount then EndGame(t, true)
    else if t.timeLeft <= 0 then EndGame(t, false)
    else t
  }

  /** endGame's timeout, three seconds later: clears the message and refills the clock. */
  function RestoreAfterEnd(s: CounterState): (t: CounterState)
    requires s.pendingRestores > 0
    ensures t == s.(message := NoMessage, timeLeft := GameDuration, pendingRestores := s.pendingRestores - 1)
  {
    s.(message := NoMessage, timeLeft := GameDuration, pendingRestores := s.pendingRestores - 1)
  }

  // ---------------------------------------------------------------------------

  /** Every button click keeps the page invariant. */
  lemma ClicksKeepInv(s: CounterState, confirmed: bool)
    requires Inv(s)
    ensures Inv(ResetClick(s, confirmed)) && Inv(DoubleClick(s, confirmed))
    ensures Inv(IncreaseClick(s)) && Inv(DecreaseClick(s))
    ensures Inv(AutoClick(s)) && Inv(GameClick(s))
  {
  }

  /** Every key press keeps the page invariant. */
  lemma KeysKeepInv(s: CounterState, key: Key)
    requires Inv(s)
    ensures Inv(KeyDown(s, key))
  {
  }

  /** Every timer firing keeps the page invariant. */
  lemma TimersKeepInv(s: CounterState)
    requires Inv(s)
    ensures s.autoRunning ==> Inv(AutoTick(s))
    ensures s.gameActive ==> Inv(GameTick(s))
    ensures s.pendingRestores > 0 ==> Inv(RestoreAfterEnd(s))
  {
  }

  /** While a game runs, the reset button is disabled, so its listener's game branch is never reached from a click. */
  lemma ResetUnreachableDuringGame(s: CounterState, confirmed: bool)
    requires Inv(s) && s.gameActive
    ensures ResetClick(s, confirmed) == s
  {
  }

  /** Manual increases during a game never lift the count above the target. */
  lemma ManualIncreaseCapped(s: CounterState, key: Key)
    requires s.gameActive && s.count <= TargetCount
    ensures IncreaseClick(s).count <= TargetCount
    ensures KeyDown(s, key).count <= TargetCount
  {
  }

  /** Manual decreases never go below zero from a non-negative count. */
  lemma DecreaseFloor(s: CounterState, key: Key)
    requires s.count >= 0
    ensures DecreaseClick(s).count >= 0 && KeyDown(s, key).count >= 0
    ensures s.count == 0 ==> DecreaseClick(s).count == 0 && Decrease(s).count == 0
  {
  }

  /** Reaching the target by the last second counts as a win. */
  lemma LastSecondWin(s: CounterState)
    requires s.gameActive && s.timeLeft == 1 && s.count >= TargetCount
    ensures GameTick(s).message == Won && !GameTick(s).gameActive
  {
  }

  /** The auto increment ignores the game: it can push the count past the target during a game. */
  lemma AutoTickIgnoresTarget(s: CounterState)
    requires s.autoRunning && s.gameActive && s.count == TargetCount
    ensures AutoTick(s).count == TargetCount + 1
  {
  }

  /** The delayed restore of an earlier game, firing during a new one, refills its clock to 15 seconds. */
  lemma StaleRestoreRefillsClock(s: CounterState)
    requires Inv(s) && s.gameActive && s.pendingRestores > 0
    ensures RestoreAfterEnd(s).gameActive && RestoreAfterEnd(s).timeLeft == GameDuration
  {
  }

  /**
   * A run of game ticks; before each tick the count may have been changed to
   * anything by the other events. Stops once the game is over.
   */
  function Ticks(s: CounterState, counts: seq<int>): CounterState
    decreases |counts|
  {
    if counts == [] || !s.gameActive then s
    else Ticks(GameTick(s.(count := counts[0])), counts[1..])
  }

  /** Whatever the count does, a running game is over after as many ticks as it has seconds left. */
  lemma {:induction false} GameEndsWhenTimeRunsOut(s: CounterState, counts: seq<int>)
    requires s.gameActive && 1 <= s.timeLeft <= |counts|
    ensures !Ticks(s, counts).gameActive
    decreases |counts|
  {
    var t := GameTick(s.(count := counts[0]));
    if t.gameActive {
      GameEndsWhenTimeRunsOut(t, counts[1..]);
    }
  }

  /** So, without a stale restore firing in between, every game ends within 15 ticks. */
  lemma GameEndsWithinDuration(s: CounterState, counts: seq<int>)
    requires Inv(s) && s.gameActive && |counts| >= GameDuration
    ensures !Ticks(s, counts).gameActive
  {
    GameEndsWhenTimeRunsOut(s, counts);
  }
}

/** The page's module-level variables and button flags, changed in place by its listeners and timers. */
module CounterScript {
  import opened Wrappers
  import opened CounterRules

  class CounterPage {
    var count: int
    var gameActive: bool
    var timeLeft: int
    var autoRunning: bool
    var increaseDisabled: bool
    var decreaseDisabled: bool
    var resetDisabled: bool
    var gameButtonDisabled: bool
    var resetVisible: bool
    var message: GameMessage
    var pendingRestores: nat

    function State(): CounterState
      reads this
    {
      CounterState(count, gameActive, timeLeft, autoRunning, increaseDisabled, decreaseDisabled,
                   resetDisabled, gameButtonDisabled, resetVisible, message, pendingRestores)
    }

    /** The script's top level, then the load handler reading "counterValue". */
    constructor (saved: Option<int>)
      ensures State() == Initial(saved)
    {
      count := 0;
      gameActive := false;
      timeLeft := GameDuration;
      autoRunning := false;
      increaseDisabled, decreaseDisabled, resetDisabled, gameButtonDisabled := false, false, false, false;
      resetVisible := true;
      message := NoMessage;
      pendingRestores := 0;
      new;
      count := if saved.Some? then saved.value else 0;
      UpdateCountDisplay();
    }

    method ToggleResetButton()
      modifies this`resetVisible
      ensures resetVisible == (count != 0)
    {
      resetVisible := count != 0;
    }

    method UpdateCountDisplay()
      modifies this`resetVisible
      ensures State() == CounterRules.UpdateCountDisplay(old(State()))
    {
      ToggleResetButton();
    }

    method EnableButtons(state: bool)
      modifies this`increaseDisabled, this`decreaseDisabled, this`resetDisabled
      ensures State() == CounterRules.EnableButtons(old(State()), state)
    {
      increaseDisabled := !state;
      decreaseDisabled := !state;
      resetDisabled := state;
    }

    method ResetClick(confirmed: bool)
      modifies this
      ensures State() == CounterRules.ResetClick(old(State()), confirmed)
    {
      if resetDisabled || !resetVisible {
        return;
      }
      if !confirmed {
        return;
      }
      count := 0;
      UpdateCountDisplay();
      if autoRunning {
        autoRunning := false;
      }
      if gameActive {
        gameActive := false;
        gameButtonDisabled := false;
        message := GameReset;
      }
    }

    method Increase()
      modifies this
      ensures State() == CounterRules.Increase(old(State()))
    {
      if !gameActive || count < TargetCount {
        count := count + 1;
        UpdateCountDisplay();
      }
    }

    method Decrease()
      modifies this
      ensures State() == CounterRules.Decrease(old(State()))
    {
      if !gameActive || count > 0 {
        if count > 0 {
          count := count - 1;
        }
        UpdateCountDisplay();
      }
    }

    method IncreaseClick()
      modifies this
      ensures State() == CounterRules.IncreaseClick(old(State()))
    {
      if !increaseDisabled {
        Increase();
      }
    }

    method DecreaseClick()
      modifies this
      ensures State() == CounterRules.DecreaseClick(old(State()))
    {
      if !decreaseDisabled {
        Decrease();
      }
    }

    method KeyDown(key: Key)
      modifies this
      ensures State() == CounterRules.KeyDown(old(State()), key)
    {
      if key == ArrowUp || key == Plus || key == ArrowRight {
        Increase();
      } else if key == ArrowDown || key == Minus || key == ArrowLeft {
        Decrease();
      }
    }

    method DoubleClick(confirmed: bool)
      modifies this
      ensures State() == CounterRules.DoubleClick(old(State()), confirmed)
    {
      if confirmed {
        count := 0;
        UpdateCountDisplay();
      }
    }

    method AutoClick()
      modifies this
      ensures State() == CounterRules.AutoClick(old(State()))
    {
      if autoRunning {
        autoRunning := false;
      } else {
        autoRunning := true;
      }
    }

    method AutoTick()
      requires autoRunning
      modifies this
      ensures State() == CounterRules.AutoTick(old(State()))
    {
      count := count + 1;
      UpdateCountDisplay();
    }

    method GameClick()
      modifies this
      ensures State() == CounterRules.GameClick(old(State()))
    {
      if gameButtonDisabled || gameActive {
        return;
      }
      count := 0;
      UpdateCountDisplay();
      gameActive := true;
      timeLeft := GameDuration;
      message := Challenge;
      gameButtonDisabled := true;
      EnableButtons(true);
    }

    method EndGame(won: bool)
      modifies this
      ensures State() == CounterRules.EndGame(old(State()), won)
    {
      gameActive := false;
      gameButtonDisabled := false;
      EnableButtons(false);
      message := if won then Won else TimeUp(count);
      pendingRestores := pendingRestores + 1;
    }

    method GameTick()
      requires gameActive
      modifies this
      ensures State() == CounterRules.GameTick(old(State()))
    {
      timeLeft := timeLeft - 1;
      message := Countdown(timeLeft);
      if count >= TargetCount {
        EndGame(true);
      } else if timeLeft <= 0 {
        EndGame(false);
      }
    }

    method RestoreAfterEnd()
      requires pendingRestores > 0
      modifies this
      ensures State() == CounterRules.RestoreAfterEnd(old(State()))
    {
      message := NoMessage;
      timeLeft := GameDuration;
      pendingRestores := pendingRestores - 1;
    }
  }
}
