/**
 * The modular counter (counter-app/modules/counter.js, with storage.js folded
 * in): one count, persisted under "counterValue" by every setCount. The
 * stored value is `stored`; `None` means nothing was ever saved.
 */
module ModularCounter {
  import opened Wrappers

  datatype Key = ArrowUp | Plus | ArrowRight | ArrowDown | Minus | ArrowLeft | OtherKey

  datatype CounterStore = CounterStore(count: int, stored: Option<int>)

  /** The count and the saved value agree, as after every setCount. */
  predicate Synced(s: CounterStore) {
    s.stored == Some(s.count)
  }

  /** setCount: assigns the count and saves it. */
  function SetCount(s: CounterStore, val: int): (t: CounterStore)
    ensures t.count == val && Synced(t)
  {
    CounterStore(val, Some(val))
  }

  function GetCount(s: CounterStore): int {
    s.count
  }

  /** The module's state before the page's load handler runs. */
  function Initial(stored: Option<int>): (s: CounterStore)
    ensures s.count == 0 && s.stored == stored
  {
    CounterStore(0, stored)
  }

  /** restoreCount (storage.js): the saved count, or 0 when there is none, through setCount. */
  function RestoreCount(s: CounterStore): (t: CounterStore)
    ensures Synced(t)
    ensures t.count == (if s.stored.Some? then s.stored.value else 0)
    ensures s.stored.Some? ==> t == s.(count := s.stored.value)
  {
    if s.stored.Some? then SetCount(s, s.stored.value) else SetCount(s, 0)
  }

  /** The increase listener: one more, with no upper bound. */
  function Increase(s: CounterStore): (t: CounterStore)
    ensures t.count == s.count + 1 && Synced(t)
  {
    SetCount(s, s.count + 1)
  }

  /** The decrease listener: one less from a positive count, otherwise the count is saved unchanged. */
  function Decrease(s: CounterStore): (t: CounterStore)
    ensures t.count == (if s.count > 0 then s.count - 1 else s.count)
    ensures Synced(t)
  {
    var c := if s.count > 0 then s.count - 1 else s.count;
    SetCount(s, c)
  }

  /** The count's double-click listener: nothing at 0; otherwise a confirmed reset to 0, and a declined one changes nothing. */
  function DoubleClick(s: CounterStore, confirmed: bool): (t: CounterStore)
    ensures s.count == 0 || !confirmed ==> t == s
    ensures s.count != 0 && confirmed ==> t.count == 0 && Synced(t)
  {
    if s.count == 0 then s
    else if confirmed then SetCount(s, 0)
    else s
  }

  /** The keydown listener: up, "+" and right increase; down, "-" and left decrease; other keys do nothing. */
  function KeyDown(s: CounterStore, key: Key): (t: CounterStore)
    ensures key == ArrowUp || key == Plus || key == ArrowRight ==> t == Increase(s)
    ensures key == ArrowDown || key == Minus || key == ArrowLeft ==> t == Decrease(s)
    ensures key == OtherKey ==> t == s
  {
    match key
    case ArrowUp | Plus | ArrowRight => Increase(s)
    case ArrowDown | Minus | ArrowLeft => Decrease(s)
    case OtherKey => s
  }

  /** getCount returns the value most recently passed to setCount, which is also the saved value. */
  lemma GetAfterSet(s: CounterStore, val: int, other: int)
    ensures GetCount(SetCount(s, val)) == val
    ensures SetCount(SetCount(s, other), val) == SetCount(s, val)
    ensures SetCount(s, val).stored == Some(GetCount(SetCount(s, val)))
  {
  }

  /** Once restored, the saved value follows the count through every event. */
  lemma EventsStaySynced(s: CounterStore, confirmed: bool, key: Key)
    requires Synced(s)
    ensures Synced(Increase(s)) && Synced(Decrease(s))
    ensures Synced(DoubleClick(s, confirmed)) && Synced(KeyDown(s, key))
  {
  }

  /** From a non-negative count, decrements by button or key never make it negative, and 0 stays 0. */
  lemma DecreaseFloor(s: CounterStore, key: Key)
    requires s.count >= 0
    ensures Decrease(s).count >= 0 && KeyDown(s, key).count >= 0
    ensures s.count == 0 ==> Decrease(s).count == 0
  {
  }

  /** Any sequence of key presses from a non-negative count stays non-negative. */
  function PressKeys(s: CounterStore, keys: seq<Key>): CounterStore
    decreases |keys|
  {
    if keys == [] then s else PressKeys(KeyDown(s, keys[0]), keys[1..])
  }

  lemma {:induction false} KeysKeepCountNonNegative(s: CounterStore, keys: seq<Key>)
    requires s.count >= 0
    ensures PressKeys(s, keys).count >= 0
    decreases |keys|
  {
    if keys != [] {
      DecreaseFloor(s, keys[0]);
      KeysKeepCountNonNegative(KeyDown(s, keys[0]), keys[1..]);
    }
  }
}

/**
 * The modular game (counter-app/modules/gameMode.js): reach `target` within
 * `timeLeft` seconds. The game reads and resets the shared count of the
 * counter module; it never disables the increase and decrease buttons.
 */
module ModularGame {
  import opened ModularCounter

  const StartTarget := 10
  const StartTime := 15

  /** What the game message element shows. */
  datatype GameMessage =
    | NoMessage
    | Started(goal: int, seconds: int)
    | Countdown(timeLeft: int, goal: int)
    | Won(goal: int)
    | TimeUp(reached: int)

  datatype GameState = GameState(
    timeLeft: int,
    target: int,
    active: bool,
    buttonDisabled: bool,
    message: GameMessage,
    pendingResets: nat)   // finish's 3-second timeouts not yet fired

  /** The counter module's store and the game module's variables. */
  datatype Page = Page(counter: CounterStore, game: GameState)

  /** The target is always 10; a running game has 1 to 15 seconds left and its button disabled; otherwise the button is enabled. */
  predicate Inv(g: GameState) {
    && g.target == StartTarget
    && (g.active ==> 1 <= g.timeLeft <= StartTime && g.buttonDisabled)
    && (!g.active ==> !g.buttonDisabled)
  }

  /** The module's variables as loaded: 15 seconds, target 10, no game, nothing scheduled. */
  function InitialGame(): (g: GameState)
    ensures Inv(g) && !g.active
    ensures g.timeLeft == StartTime && g.target == StartTarget && !g.buttonDisabled
    ensures g.message == NoMessage && g.pendingResets == 0
  {
    GameState(StartTime, StartTarget, false, false, NoMessage, 0)
  }

  /** The start listener: no-op during a game; otherwise target 10, 15 seconds, count 0 (saved), active, button disabled. */
  function StartHandler(p: Page): (q: Page)
    ensures p.game.active ==> q == p
    ensures !p.game.active ==>
      && q.game.active && q.game.buttonDisabled
      && q.game.target == StartTarget && q.game.timeLeft == StartTime
      && q.counter == SetCount(p.counter, 0)
      && q.game.message == Started(StartTarget, StartTime)
      && q.game.pendingResets == p.game.pendingResets
  {
    if p.game.active then p
    else
      Page(SetCount(p.counter, 0),
           p.game.(target := StartTarget, timeLeft := StartTime, active := true, buttonDisabled := true,
                   message := Started(StartTarget, StartTime)))
  }

  /** A click on the start button: none while it is disabled. */
  function StartClick(p: Page): (q: Page)
    ensures p.game.buttonDisabled ==> q == p
    ensures !p.game.buttonDisabled ==> q == StartHandler(p)
  {
    if p.game.buttonDisabled then p else StartHandler(p)
  }

  /** finish: the game stops and its button is enabled; a delayed reset is scheduled. The count is untouched. */
  function Finish(p: Page, won: bool): (q: Page)
    ensures !q.game.active && !q.game.buttonDisabled
    ensures q.counter == p.counter
    ensures q.game.timeLeft == p.game.timeLeft && q.game.target == p.game.target
    ensures q.game.message == (if won then Won(p.game.target) else TimeUp(p.counter.count))
    ensures q.game.pendingResets == p.game.pendingResets + 1
  {
    var msg := if won then Won(p.game.target) else TimeUp(GetCount(p.counter));
    p.(game := p.game.(active := false, buttonDisabled := false, message := msg,
                       pendingResets := p.game.pendingResets + 1))
  }

  /** One firing of the game interval: a second less, then the win check before the time-out check. */
  function Tick(p: Page): (q: Page)
    requires p.game.active
    ensures q.counter == p.counter && q.game.timeLeft == p.game.timeLeft - 1
    ensures p.counter.count >= p.game.target ==> !q.game.active && q.game.message == Won(p.game.target)
    ensures p.counter.count >= p.game.target ==>
      q == Finish(p.(game := p.game.(timeLeft := p.game.timeLeft - 1,
                                     message := Countdown(p.game.timeLeft - 1, p.game.target))), true)
    ensures p.counter.count < p.game.target && p.game.timeLeft - 1 <= 0 ==>
      !q.game.active && q.game.message == TimeUp(p.counter.count)
    ensures p.counter.count < p.game.target && p.game.timeLeft - 1 <= 0 ==>
      q == Finish(p.(game := p.game.(timeLeft := p.game.timeLeft - 1,
                                     message := Countdown(p.game.timeLeft - 1, p.game.target))), false)
    ensures p.counter.count < p.game.target && p.game.timeLeft - 1 > 0 ==>
      q.game == p.game.(timeLeft := p.game.timeLeft - 1, message := Countdown(p.game.timeLeft - 1, p.game.target))
  {
    var t := p.(game := p.game.(timeLeft := p.game.timeLeft - 1,
                                message := Countdown(p.game.timeLeft - 1, p.game.target)));
    if GetCount(t.counter) >= t.game.target then Finish(t, true)
    else if t.game.timeLeft <= 0 then Finish(t, false)
    else t
  }

  /** finish's timeout, three seconds later: message cleared, 15 seconds and target 10 restored. */
  function DelayedReset(p: Page): (q: Page)
    requires p.game.pendingResets > 0
    ensures q.counter == p.counter && q.game.active == p.game.active && q.game.buttonDisabled == p.game.buttonDisabled
    ensures q.game.timeLeft == StartTime && q.game.target == StartTarget && q.game.message == NoMessage
    ensures q.game.pendingResets == p.game.pendingResets - 1
  {
    p.(game := p.game.(message := NoMessage, timeLeft := StartTime, target := StartTarget,
                       pendingResets := p.game.pendingResets - 1))
  }

  /** The game's steps keep its invariant; counter events do not touch the game. */
  lemma StepsKeepInv(p: Page)
    requires Inv(p.game)
    ensures Inv(StartClick(p).game)
    ensures p.game.active ==> Inv(Tick(p).game)
    ensures p.game.pendingResets > 0 ==> Inv(DelayedReset(p).game)
  {
  }

  /** After a game has finished, a start click begins a new one. */
  lemma FinishAllowsRestart(p: Page, won: bool)
    ensures StartClick(Finish(p, won)).game.active
    ensures StartClick(Finish(p, won)).counter.count == 0
  {
  }

  /** Reaching the target on the last second counts as a win. */
  lemma LastSecondWin(p: Page)
    requires p.game.active && p.game.timeLeft == 1 && p.counter.count >= p.game.target
    ensures Tick(p).game.message == Won(p.game.target)
  {
  }

  /** Counter events between ticks are unguarded: during a game the count can pass the target. */
  lemma IncreaseDuringGameUnbounded(p: Page)
    requires p.game.active && p.counter.count == p.game.target
    ensures Increase(p.counter).count == p.game.target + 1
  {
  }

  /**
   * A run of game ticks, with the count set to `counts[i]` by counter events
   * before tick i (always through setCount). Stops once the game is over.
   */
  function Ticks(p: Page, counts: seq<int>): Page
    decreases |counts|
  {
    if counts == [] || !p.game.active then p
    else Ticks(Tick(p.(counter := SetCount(p.counter, counts[0]))), counts[1..])
  }

  lemma {:induction false} GameEndsWhenTimeRunsOut(p: Page, counts: seq<int>)
    requires p.game.active && 1 <= p.game.timeLeft <= |counts|
    ensures !Ticks(p, counts).game.active
    decreases |counts|
  {
    var q := Tick(p.(counter := SetCount(p.counter, counts[0])));
    if q.game.active {
      GameEndsWhenTimeRunsOut(q, counts[1..]);
    }
  }

  /** A game just started finishes within 15 ticks, whatever happens to the count meanwhile. */
  lemma GameEndsWithin15Ticks(p: Page, counts: seq<int>)
    requires !p.game.active && |counts| >= StartTime
    ensures !Ticks(StartHandler(p), counts).game.active
  {
    GameEndsWhenTimeRunsOut(StartHandler(p), counts);
  }
}

/** The two modules' variables held in place, with the game holding a reference to the shared counter. */
module ModularCounterPage {
  import opened Wrappers
  import opened ModularCounter
  import opened ModularGame

  /** counter.js's `count`, with the "counterValue" storage entry. */
  class Counter {
    var count: int
    var stored: Option<int>

    function State(): CounterStore
      reads this
    {
      CounterStore(count, stored)
    }

    constructor (storage: Option<int>)
      ensures State() == Initial(storage)
    {
      count := 0;
      stored := storage;
    }

    method GetCount() returns (c: int)
      ensures c == count
    {
      c := count;
    }

    method SetCount(val: int)
      modifies this
      ensures State() == ModularCounter.SetCount(old(State()), val)
    {
      count := val;
      stored := Some(count);
    }

    method RestoreCount()
      modifies this
      ensures State() == ModularCounter.RestoreCount(old(State()))
    {
      var savedCount := stored;
      if savedCount.Some? {
        SetCount(savedCount.value);
      } else {
        SetCount(0);
      }
    }

    method Increase()
      modifies this
      ensures State() == ModularCounter.Increase(old(State()))
    {
      count := count + 1;
      SetCount(count);
    }

    method Decrease()
      modifies this
      ensures State() == ModularCounter.Decrease(old(State()))
    {
      if count > 0 {
        count := count - 1;
      }
      SetCount(count);
    }

    method DoubleClick(confirmed: bool)
      modifies this
      ensures State() == ModularCounter.DoubleClick(old(State()), confirmed)
    {
      if count == 0 {
        return;
      }
      if confirmed {
        SetCount(0);
      }
    }

    method KeyDown(key: Key)
      modifies this
      ensures State() == ModularCounter.KeyDown(old(State()), key)
    {
      if key == ArrowUp || key == Plus || key == ArrowRight {
        Increase();
      } else if key == ArrowDown || key == Minus || key == ArrowLeft {
        Decrease();
      }
    }
  }

  /** gameMode.js's `timeLeft`, `target` and `active`, the game button and message, over the shared counter. */
  class GameMode {
    const counter: Counter
    var timeLeft: int
    var target: int
    var active: bool
    var buttonDisabled: bool
    var message: GameMessage
    var pendingResets: nat

    function State(): Page
      reads this, counter
    {
      Page(counter.State(), GameState(timeLeft, target, active, buttonDisabled, message, pendingResets))
    }

    constructor (shared: Counter)
      ensures counter == shared
      ensures State().game == InitialGame()
    {
      counter := shared;
      timeLeft := StartTime;
      target := StartTarget;
      active := false;
      buttonDisabled := false;
      message := NoMessage;
      pendingResets := 0;
    }

    method StartClick()
      modifies this, counter
      ensures State() == ModularGame.StartClick(old(State()))
    {
      if buttonDisabled || active {
        return;
      }
      target := StartTarget;
      timeLeft := StartTime;
      counter.SetCount(0);
      active := true;
      buttonDisabled := true;
      message := Started(target, timeLeft);
    }

    method Finish(won: bool)
      modifies this
      ensures State() == ModularGame.Finish(old(State()), won)
    {
      active := false;
      buttonDisabled := false;
      if won {
        message := Won(target);
      } else {
        var reached := counter.GetCount();
        message := TimeUp(reached);
      }
      pendingResets := pendingResets + 1;
    }

    method Tick()
      requires active
      modifies this
      ensures State() == ModularGame.Tick(old(State()))
    {
      timeLeft := timeLeft - 1;
      message := Countdown(timeLeft, target);
      var c := counter.GetCount();
      if c >= target {
        Finish(true);
      } else if timeLeft <= 0 {
        Finish(false);
      }
    }

    method DelayedReset()
      requires pendingResets > 0
      modifies this
      ensures State() == ModularGame.DelayedReset(old(State()))
    {
      message := NoMessage;
      timeLeft := StartTime;
      target := StartTarget;
      pendingResets := pendingResets - 1;
    }
  }

  /** The page's load handler and one game: the saved count is restored, then the start click zeroes and saves it. */
  method LoadThenPlay()
  {
    var counter := new Counter(Some(7));
    var game := new GameMode(counter);
    counter.RestoreCount();
    assert counter.count == 7;
    game.StartClick();
    assert counter.State() == CounterStore(0, Some(0));
    assert game.active && game.timeLeft == StartTime;
    counter.KeyDown(ArrowUp);
    game.Tick();
    assert game.active && game.timeLeft == StartTime - 1 && counter.count == 1;
  }
}
