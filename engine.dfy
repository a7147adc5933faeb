/**
 * The game state that `script.js` keeps in module-level variables
 * (script.js:10-20), and the handlers that change it: starting a run, a spawn
 * tick, catching an item, the difficulty recompute, the three mystery-box
 * choices and their expiry, the end of a run, the daily reset and the
 * all-time reset. Every `Math.random()` draw is a parameter `u` in [0, 1).
 */
module Engine {
  import opened Wrappers
  import opened Catalog
  import opened Geometry
  import opened Growth
  import opened Effects
  import opened Leaderboard
  import opened Names

  /** The branch of `handleCatch` a caught item takes (script.js:194-214). */
  datatype CatchOutcome = Scored | Rerolled | Shielded | Ended | Paused | Ignored

  function Classify(item: Item, shield: bool): CatchOutcome
  {
    if item.points > 0 && item.symbol != Water && item.symbol != Mystery then Scored
    else if item.symbol == Water then Rerolled
    else if item.symbol == Worm then (if shield then Shielded else Ended)
    else if item.symbol == Mystery then Paused
    else Ignored
  }

  /**
   * Over the catalogue every catch does something: the three crops score, the
   * Liquid Loan re-rolls the basket, the Worminator is blocked or ends the run,
   * and the Mystery Box pauses it.
   */
  lemma CatalogueOutcomes(i: nat, shield: bool)
    requires i < |Items|
    ensures Classify(Items[i], shield) != Ignored
    ensures Classify(Items[i], shield) == Scored <==> Items[i].symbol in {Sprout, Corn, Carrot}
    ensures Classify(Items[i], shield) == Ended <==> Items[i].symbol == Worm && !shield
  {
  }

  /**
   * The draws one `dropLoop` tick consumes: one for the item count, one per
   * pick (seven at most) and one for the delay before the next tick.
   */
  datatype TickDraws = TickDraws(count: real, picks: seq<real>, delay: real)

  predicate DrawsInRange(d: TickDraws)
  {
    && 0.0 <= d.count < 1.0 && 0.0 <= d.delay < 1.0 && |d.picks| >= 7
    && forall k :: 0 <= k < |d.picks| ==> 0.0 <= d.picks[k] < 1.0
  }

  /**
   * What a tick of an active run yields: 5 to 7 items, each the weighted pick
   * whose band holds its own draw, and the delay before the next tick.
   */
  predicate ActiveTick(d: TickDraws, interval: int, spawned: seq<nat>, next: Option<real>)
    requires DrawsInRange(d) && 0 < interval
  {
    && |spawned| == SpawnCount(d.count)
    && next == Some(NextDropDelay(d.delay, interval))
    && forall k :: 0 <= k < |spawned| ==>
         spawned[k] < |Items| && InBand(Items, spawned[k], d.picks[k] * 100.0)
  }

  class Game {
    var gameActive: bool
    var score: int
    var basketWidth: real
    var multiplier: int
    var shield: bool
    var logoSize: real
    var dropInterval: int
    var speedMultiplier: real
    var allTimeScores: seq<Entry>
    var dailyScores: DailyRecord
    /** The name `startGame` writes into the page and `endGame` reads back. */
    var playerName: string

    /** What every handler keeps true of the run state. */
    ghost predicate Valid()
      reads this
    {
      0 <= score && (multiplier == 1 || multiplier == 2) &&
      MinBasket <= basketWidth < MinBasket + BasketSpread &&
      MinLogo <= logoSize <= MaxLogo && 1.0 <= speedMultiplier &&
      dropInterval == 2000
    }

    /** The state when the script loads; the stored lists are the parsed local-storage keys, if any. */
    constructor (storedAllTime: Option<seq<Entry>>, storedDaily: Option<DailyRecord>)
      ensures Valid()
      ensures !gameActive && score == 0 && basketWidth == MinBasket && multiplier == 1 && !shield
      ensures logoSize == MinLogo && dropInterval == 2000 && speedMultiplier == 1.0 && playerName == ""
      ensures allTimeScores == if storedAllTime.Some? then storedAllTime.value else []
      ensures dailyScores == if storedDaily.Some? then storedDaily.value else DailyRecord(None, [])
    {
      gameActive := false;
      score := 0;
      basketWidth := 100.0;
      multiplier := 1;
      shield := false;
      logoSize := 100.0;
      dropInterval := 2000;
      speedMultiplier := 1.0;
      allTimeScores := if storedAllTime.Some? then storedAllTime.value else [];
      dailyScores := if storedDaily.Some? then storedDaily.value else DailyRecord(None, []);
      playerName := "";
    }

    /**
     * `startGame`: a fresh run under the entered name; the leaderboards carry
     * over, and the first spawn tick runs at once.
     */
    method StartGame(input: string, d: TickDraws) returns (spawned: seq<nat>, next: Option<real>)
      requires DrawsInRange(d)
      modifies this
      ensures Valid()
      ensures gameActive && score == 0 && basketWidth == MinBasket && multiplier == 1 && !shield
      ensures logoSize == MinLogo && dropInterval == 2000 && speedMultiplier == 1.0
      ensures playerName == DisplayName(input)
      ensures allTimeScores == old(allTimeScores) && dailyScores == old(dailyScores)
      ensures ActiveTick(d, dropInterval, spawned, next)
    {
      var username := DisplayName(input);
      gameActive := true;
      score := 0;
      basketWidth := 100.0;
      multiplier := 1;
      shield := false;
      logoSize := 100.0;
      dropInterval := 2000;
      speedMultiplier := 1.0;
      playerName := username;
      spawned, next := DropLoop(d);
    }

    /**
     * One tick of `dropLoop`: nothing while the run is inactive; otherwise
     * five to seven weighted picks from the catalogue, one per draw, and the
     * delay before the next tick.
     */
    method DropLoop(d: TickDraws) returns (spawned: seq<nat>, next: Option<real>)
      requires Valid() && DrawsInRange(d)
      ensures !gameActive ==> spawned == [] && next == None
      ensures gameActive ==> ActiveTick(d, dropInterval, spawned, next)
    {
      if !gameActive {
        return [], None;
      }
      CatalogueBands();
      var numItems := SpawnCount(d.count);
      spawned := [];
      for i := 0 to numItems
        invariant |spawned| == i
        invariant forall k :: 0 <= k < i ==>
          spawned[k] < |Items| && InBand(Items, spawned[k], d.picks[k] * 100.0)
      {
        var picked := DropChoice(Items, d.picks[i]);
        spawned := spawned + [picked.value];
      }
      next := Some(NextDropDelay(d.delay, dropInterval));
    }

    /** The mousemove handler: the basket's new left edge, or nothing while the run is inactive. */
    method MoveBasket(clientX: real, panelLeft: real, panelWidth: real) returns (newLeft: Option<real>)
      ensures !gameActive ==> newLeft == None
      ensures gameActive ==> newLeft.Some? && 0.0 <= newLeft.value
      ensures gameActive && basketWidth <= panelWidth ==> newLeft.value + basketWidth <= panelWidth
      ensures gameActive ==> newLeft == Some(BasketLeft(clientX, panelLeft, panelWidth, basketWidth))
    {
      if !gameActive {
        return None;
      }
      newLeft := Some(BasketLeft(clientX, panelLeft, panelWidth, basketWidth));
    }

    /** `updateGrowth`: logo size and fall speed follow the current score. */
    method UpdateGrowth()
      requires Valid()
      modifies this
      ensures Valid()
      ensures logoSize == LogoSizeFor(score) && speedMultiplier == SpeedFor(score)
      ensures gameActive == old(gameActive) && score == old(score) && basketWidth == old(basketWidth)
      ensures multiplier == old(multiplier) && shield == old(shield) && dropInterval == old(dropInterval)
      ensures allTimeScores == old(allTimeScores) && dailyScores == old(dailyScores)
      ensures playerName == old(playerName)
    {
      var newSize := LogoSizeFor(score);
      if newSize != logoSize {
        logoSize := newSize;
      }
      speedMultiplier := SpeedFor(score);
    }

    /**
     * The evidently intended `endGame`: the run stops and the entry goes into
     * both leaderboards, the daily list cut to its top ten like the all-time
     * list at script.js:237.
     */
    method EndGame()
      requires Valid()
      modifies this
      ensures Valid()
      ensures !gameActive
      ensures allTimeScores == Record(old(allTimeScores), Entry(old(playerName), old(score)))
      ensures dailyScores == RecordDaily(old(dailyScores), Entry(old(playerName), old(score)))
      ensures SortedDesc(allTimeScores) && |allTimeScores| <= MaxEntries
      ensures score == old(score) && basketWidth == old(basketWidth) && multiplier == old(multiplier)
      ensures shield == old(shield) && logoSize == old(logoSize) && dropInterval == old(dropInterval)
      ensures speedMultiplier == old(speedMultiplier) && playerName == old(playerName)
    {
      gameActive := false;
      var entry := Entry(playerName, score);
      allTimeScores := allTimeScores + [entry];
      var daily := dailyScores.scores + [entry];
      allTimeScores := SortDesc(allTimeScores);
      daily := SortDesc(daily);
      allTimeScores := Top(allTimeScores);
      dailyScores := dailyScores.(scores := Top(daily));
    }

    /**
     * `endGame` as written: the all-time list is pushed, sorted and cut, the
     * daily list is pushed and sorted in place, and then
     * `dailyScores.slice(0, 10)` throws, so `threw` is always set and nothing
     * after it (the cut of the daily list, saving both lists, the final score
     * and the game-over screen) happens.
     */
    method EndGameAsWritten() returns (threw: bool)
      requires Valid()
      modifies this
      ensures threw
      ensures Valid()
      ensures !gameActive
      ensures allTimeScores == Record(old(allTimeScores), Entry(old(playerName), old(score)))
      ensures dailyScores == DailyAfterThrow(old(dailyScores), Entry(old(playerName), old(score)))
      ensures score == old(score) && basketWidth == old(basketWidth) && multiplier == old(multiplier)
      ensures shield == old(shield) && logoSize == old(logoSize) && dropInterval == old(dropInterval)
      ensures speedMultiplier == old(speedMultiplier) && playerName == old(playerName)
    {
      gameActive := false;
      var entry := Entry(playerName, score);
      allTimeScores := allTimeScores + [entry];
      var daily := dailyScores.scores + [entry];
      allTimeScores := SortDesc(allTimeScores);
      daily := SortDesc(daily);
      allTimeScores := Top(allTimeScores);
      dailyScores := dailyScores.(scores := daily);
      threw := true;
    }

    /**
     * The state after `handleCatch(item)` against the state before it, branch
     * by branch (script.js:194-216).
     */
    twostate predicate CatchEffect(item: Item, widthDraw: real)
      requires old(multiplier) == 1 || old(multiplier) == 2
      requires 0.0 <= widthDraw < 1.0
      reads this
    {
      var o := Classify(item, old(shield));
      && score == old(score) + (if o == Scored || o == Rerolled then Gain(item.points, old(multiplier)) else 0)
      && basketWidth == (if o == Rerolled then RerolledWidth(widthDraw) else old(basketWidth))
      && gameActive == (if o == Ended || o == Paused then false else old(gameActive))
      && allTimeScores == (if o == Ended then Record(old(allTimeScores), Entry(old(playerName), old(score)))
                           else old(allTimeScores))
      && dailyScores == (if o == Ended then RecordDaily(old(dailyScores), Entry(old(playerName), old(score)))
                         else old(dailyScores))
      && (if o == Shielded then logoSize == old(logoSize) && speedMultiplier == old(speedMultiplier)
          else logoSize == LogoSizeFor(score) && speedMultiplier == SpeedFor(score))
      && shield == old(shield) && multiplier == old(multiplier)
      && dropInterval == old(dropInterval) && playerName == old(playerName)
    }

    /**
     * `handleCatch` with the intended `endGame`. Crops add their points times
     * the multiplier; the Liquid Loan adds its points and re-rolls the basket;
     * the Worminator is ignored under a shield (leaving even the growth state
     * alone) and otherwise ends the run; the Mystery Box pauses the run. Every
     * branch but the blocked worm then recomputes growth.
     */
    method HandleCatch(item: Item, widthDraw: real)
      requires Valid() && 0.0 <= widthDraw < 1.0
      modifies this
      ensures Valid()
      ensures CatchEffect(item, widthDraw)
    {
      if item.points > 0 && item.symbol != Water && item.symbol != Mystery {
        score := score + Gain(item.points, multiplier);
      } else if item.symbol == Water {
        score := score + Gain(item.points, multiplier);
        basketWidth := RerolledWidth(widthDraw);
      } else if item.symbol == Worm {
        if shield {
          return;
        }
        EndGame();
      } else if item.symbol == Mystery {
        gameActive := false;
      }
      UpdateGrowth();
    }

    /** One collision poll of a falling item: on overlap the item is caught. */
    method PollCollision(item: Item, itemRect: Rect, basketRect: Rect, widthDraw: real)
      returns (caught: bool)
      requires Valid() && 0.0 <= widthDraw < 1.0
      modifies this
      ensures Valid()
      ensures caught == Overlaps(itemRect, basketRect)
      ensures caught ==> CatchEffect(item, widthDraw)
      ensures !caught ==> unchanged(this)
    {
      caught := Overlaps(itemRect, basketRect);
      if caught {
        HandleCatch(item, widthDraw);
      }
    }

    /** `resumeGame`: the mystery box's pause ends and a spawn tick runs at once. */
    method Resume(d: TickDraws) returns (spawned: seq<nat>, next: Option<real>)
      requires Valid() && DrawsInRange(d)
      modifies this`gameActive
      ensures Valid() && gameActive
      ensures ActiveTick(d, dropInterval, spawned, next)
    {
      gameActive := true;
      spawned, next := DropLoop(d);
    }

    /** Burn Debt: keep three quarters of the score and double catches, then resume. */
    method BurnDebt(d: TickDraws) returns (spawned: seq<nat>, next: Option<real>)
      requires Valid() && DrawsInRange(d)
      modifies this
      ensures Valid()
      ensures score == Burned(old(score)) && score <= old(score) && multiplier == 2 && gameActive
      ensures basketWidth == old(basketWidth) && shield == old(shield) && logoSize == old(logoSize)
      ensures speedMultiplier == old(speedMultiplier) && dropInterval == old(dropInterval)
      ensures allTimeScores == old(allTimeScores) && dailyScores == old(dailyScores)
      ensures playerName == old(playerName)
      ensures ActiveTick(d, dropInterval, spawned, next)
    {
      score := Burned(score);
      multiplier := 2;
      spawned, next := Resume(d);
    }

    /** The Burn Debt timer firing: catches count once again. */
    method ExpireMultiplier()
      requires Valid()
      modifies this`multiplier
      ensures Valid() && multiplier == 1
    {
      multiplier := 1;
    }

    /** Supercollateral: the worm is blocked from now on, then resume. */
    method Supercollateral(d: TickDraws) returns (spawned: seq<nat>, next: Option<real>)
      requires Valid() && DrawsInRange(d)
      modifies this
      ensures Valid()
      ensures shield && gameActive
      ensures score == old(score) && basketWidth == old(basketWidth) && multiplier == old(multiplier)
      ensures logoSize == old(logoSize) && speedMultiplier == old(speedMultiplier)
      ensures dropInterval == old(dropInterval) && allTimeScores == old(allTimeScores)
      ensures dailyScores == old(dailyScores) && playerName == old(playerName)
      ensures ActiveTick(d, dropInterval, spawned, next)
    {
      shield := true;
      spawned, next := Resume(d);
    }

    /** The Supercollateral timer firing: the worm is deadly again. */
    method ExpireShield()
      requires Valid()
      modifies this`shield
      ensures Valid() && !shield
    {
      shield := false;
    }

    /** Proof of Repayment: double or halve the score on a draw, then resume. */
    method ProofOfRepayment(u: real, d: TickDraws) returns (spawned: seq<nat>, next: Option<real>)
      requires Valid() && DrawsInRange(d) && 0.0 <= u < 1.0
      modifies this
      ensures Valid()
      ensures score == Gambled(old(score), u) && gameActive
      ensures basketWidth == old(basketWidth) && multiplier == old(multiplier) && shield == old(shield)
      ensures logoSize == old(logoSize) && speedMultiplier == old(speedMultiplier)
      ensures dropInterval == old(dropInterval) && allTimeScores == old(allTimeScores)
      ensures dailyScores == old(dailyScores) && playerName == old(playerName)
      ensures ActiveTick(d, dropInterval, spawned, next)
    {
      score := Gambled(score, u);
      spawned, next := Resume(d);
    }

    /** The reset button under the all-time list. */
    method ResetAllTime()
      modifies this`allTimeScores
      ensures allTimeScores == []
    {
      allTimeScores := [];
    }

    /** `checkDailyReset`: a new day starts an empty daily list. */
    method CheckDailyReset(today: string)
      modifies this`dailyScores
      ensures dailyScores == DailyReset(old(dailyScores), today)
      ensures dailyScores.date == Some(today)
    {
      if dailyScores.date.None? || dailyScores.date.value == "" || dailyScores.date.value != today {
        dailyScores := DailyRecord(Some(today), []);
      }
    }
  }
}
