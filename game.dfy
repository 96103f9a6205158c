/**
 * The race session (game.h, game.cpp): three dogs on a 100-cell track, the
 * player's step rule, the timed CPU advance and the loop that ends the race.
 */
module Games {
  import opened Wrappers
  import opened Dogs
  import opened Tracks

  /** Finish-line distance of the session's track. */
  const TrackLength := 100
  /** Where the two CPU dogs start, behind the player at 0. */
  const CpuStart := -5
  /** Milliseconds between two advances of the CPU dogs. */
  const CpuInterval := 500
  /** Lead over a CPU dog beyond which the player counts as ahead of or behind it. */
  const Margin := 15

  /** Which of the three step ranges the player's next move is drawn from. */
  datatype Pace = SlowDown | CatchUp | Normal

  /** The position of the CPU dog further along. */
  function Leader(cpu1: int, cpu2: int): int {
    if cpu1 >= cpu2 then cpu1 else cpu2
  }

  /**
   * The step rule: well ahead of both CPU dogs the player slows down; well
   * behind either of them, and short of 70% of the track, the player catches
   * up; otherwise the player moves normally. `10 * player < 7 * length` is
   * the source's `player < length * 0.7` on integers. Only the leading CPU
   * dog matters, and the two tests never hold together.
   */
  function PaceFor(player: int, cpu1: int, cpu2: int, length: int): (r: Pace)
    ensures r == SlowDown <==> player - Leader(cpu1, cpu2) > Margin
    ensures r == CatchUp <==> player - Leader(cpu1, cpu2) < -Margin && 10 * player < 7 * length
  {
    var d1 := player - cpu1;
    var d2 := player - cpu2;
    if d1 > Margin && d2 > Margin then SlowDown
    else if (d1 < -Margin || d2 < -Margin) && 10 * player < 7 * length then CatchUp
    else Normal
  }

  /** Smallest step of a pace's inclusive range; the player always moves at least one cell. */
  function MinSteps(p: Pace): (lo: int)
    ensures 1 <= lo <= 2
  {
    match p
    case SlowDown => 1
    case CatchUp => 2
    case Normal => 1
  }

  /** Largest step of a pace's inclusive range; no move exceeds four cells. */
  function MaxSteps(p: Pace): (hi: int)
    ensures 2 <= hi <= 4
  {
    match p
    case SlowDown => 2
    case CatchUp => 4
    case Normal => 3
  }

  /** Every pace's range is non-empty and lies within 1..4. */
  lemma PaceRangeBounds(p: Pace)
    ensures 1 <= MinSteps(p) <= MaxSteps(p) <= 4
  {
  }

  /** Far ahead, the player's steps are slightly reduced: the same least step, a smaller greatest one. */
  lemma SlowDownIsSlower()
    ensures MinSteps(SlowDown) == MinSteps(Normal) && MaxSteps(SlowDown) < MaxSteps(Normal)
  {
  }

  /** Far behind, the player's steps are slightly increased: both ends of the range go up. */
  lemma CatchUpIsFaster()
    ensures MinSteps(Normal) < MinSteps(CatchUp) && MaxSteps(Normal) < MaxSteps(CatchUp)
  {
  }

  /** From 70% of the track on, being far behind no longer earns the catch-up range. */
  lemma NoCatchUpLate(player: int, cpu1: int, cpu2: int, length: int)
    requires 10 * player >= 7 * length
    ensures PaceFor(player, cpu1, cpu2, length) != CatchUp
  {
  }

  /**
   * A random draw from the inclusive range `lo..hi`. The generator is not
   * modelled: a draw is an arbitrary `roll` folded into the range.
   */
  function Draw(lo: int, hi: int, roll: nat): (v: int)
    requires lo <= hi
    ensures lo <= v <= hi
  {
    lo + roll % (hi - lo + 1)
  }

  /** Every value of the range is the outcome of some roll, so no outcome of the game is lost. */
  lemma DrawReachesAll(lo: int, hi: int, v: int)
    requires lo <= v <= hi
    ensures Draw(lo, hi, v - lo) == v
  {
  }

  /** What happens during one pass of the game loop. */
  datatype TickInput = TickInput(
    key: Option<char>,  // the key read this pass, if one was pending
    playerRoll: nat,    // the draw used when the player moves
    now: int,           // the monotonic clock, in milliseconds
    cpuRoll: nat)       // the draw used when the CPU dogs move

  /** How a call to Run left the race. */
  datatype Outcome = Undecided | Victory | Defeat

  /** The part of a session that one pass of the game loop changes. */
  datatype RaceState = RaceState(player: int, cpu1: int, cpu2: int, lastCpu: int)

  /** Some dog is at or past the finish line. */
  predicate Over(s: RaceState) {
    s.player >= TrackLength || s.cpu1 >= TrackLength || s.cpu2 >= TrackLength
  }

  /**
   * The state after one pass: the player moves by a draw from the range of
   * the current pace iff the key is a space; once the interval is up, both
   * CPU dogs move by one shared draw from 1..2 and the interval restarts.
   * No dog moves back, and the distance between the CPU dogs is kept.
   */
  function Pass(s: RaceState, t: TickInput): (r: RaceState)
    ensures s.player <= r.player <= s.player + 4
    ensures s.cpu1 <= r.cpu1 <= s.cpu1 + 2
    ensures r.cpu1 - r.cpu2 == s.cpu1 - s.cpu2
  {
    var pace := PaceFor(s.player, s.cpu1, s.cpu2, TrackLength);
    var player :=
      if t.key == Some(' ') then s.player + Draw(MinSteps(pace), MaxSteps(pace), t.playerRoll)
      else s.player;
    if t.now - s.lastCpu >= CpuInterval then
      var step := Draw(1, 2, t.cpuRoll);
      RaceState(player, s.cpu1 + step, s.cpu2 + step, t.now)
    else
      RaceState(player, s.cpu1, s.cpu2, s.lastCpu)
  }

  class Game {
    const track: Track
    const playerDog: Dog
    const cpuDog1: Dog
    const cpuDog2: Dog
    var gameOver: bool
    // When the CPU dogs last moved, in milliseconds of the monotonic clock.
    var lastCpuMoveTime: int

    /** The session's fixed set-up: three distinct dogs, one of them the player's, on a 100-cell track. */
    ghost predicate Valid() {
      playerDog != cpuDog1 && playerDog != cpuDog2 && cpuDog1 != cpuDog2 &&
      playerDog.isPlayer && !cpuDog1.isPlayer && !cpuDog2.isPlayer &&
      track.length == TrackLength
    }

    /** The track holds the three dogs in the order player, CPU1, CPU2. */
    ghost predicate Initialized()
      reads track
    {
      track.dogs == [playerDog, cpuDog1, cpuDog2]
    }

    /** The pace the player's next move is drawn with. */
    function CurrentPace(): Pace
      reads playerDog, cpuDog1, cpuDog2
    {
      PaceFor(playerDog.position, cpuDog1.position, cpuDog2.position, track.length)
    }

    /** The distance from CPU1 to CPU2, which no operation changes. */
    function CpuGap(): int
      reads cpuDog1, cpuDog2
    {
      cpuDog1.position - cpuDog2.position
    }

    /** Every dog is short of the finish line. */
    /** The session's positions and CPU timer. */
    function Snapshot(): RaceState
      reads this, playerDog, cpuDog1, cpuDog2
    {
      RaceState(playerDog.position, cpuDog1.position, cpuDog2.position, lastCpuMoveTime)
    }

    ghost predicate AllShortOfFinish()
      reads playerDog, cpuDog1, cpuDog2
    {
      playerDog.position < TrackLength && cpuDog1.position < TrackLength &&
      cpuDog2.position < TrackLength
    }

    /** No dog is more than three cells past the finish line. */
    ghost predicate AllWithinOvershoot()
      reads playerDog, cpuDog1, cpuDog2
    {
      playerDog.position <= TrackLength + 3 && cpuDog1.position <= TrackLength + 3 &&
      cpuDog2.position <= TrackLength + 3
    }

    /** The dogs' positions in the track's order, once initialized. */
    lemma PositionsInOrder()
      requires Initialized()
      ensures track.Positions() == [playerDog.position, cpuDog1.position, cpuDog2.position]
    {
    }

    /** Once initialized, the race is over exactly when some dog has reached the finish line. */
    lemma FinishedIffSomeDogArrived()
      requires Valid() && Initialized()
      ensures AnyFinished(track.Positions(), TrackLength) <==> !AllShortOfFinish()
    {
      PositionsInOrder();
      var ps := track.Positions();
      if !AllShortOfFinish() {
        if playerDog.position >= TrackLength {
          assert ps[0] >= TrackLength;
        } else if cpuDog1.position >= TrackLength {
          assert ps[1] >= TrackLength;
        } else {
          assert ps[2] >= TrackLength;
        }
      }
    }

    /** A new session: the dogs at their starting cells, nobody on the track yet. */
    constructor (now: int)
      ensures Valid() && fresh(track) && fresh(playerDog) && fresh(cpuDog1) && fresh(cpuDog2)
      ensures track.dogs == []
      ensures playerDog.position == 0 && playerDog.symbol == '@' && playerDog.name == "Player"
      ensures cpuDog1.position == CpuStart && cpuDog1.symbol == '%' && cpuDog1.name == "CPU1"
      ensures cpuDog2.position == CpuStart && cpuDog2.symbol == '#' && cpuDog2.name == "CPU2"
      ensures !gameOver && lastCpuMoveTime == now
    {
      track := new Track(TrackLength);
      playerDog := new Dog('@', 0, true, "Player");
      cpuDog1 := new Dog('%', CpuStart, false, "CPU1");
      cpuDog2 := new Dog('#', CpuStart, false, "CPU2");
      gameOver := false;
      lastCpuMoveTime := now;
    }

    /** Puts the dogs on the track: player first, then CPU1, then CPU2. */
    method Initialize()
      modifies track
      ensures track.dogs == old(track.dogs) + [playerDog, cpuDog1, cpuDog2]
    {
      track.AddDog(playerDog);
      track.AddDog(cpuDog1);
      track.AddDog(cpuDog2);
    }

    /**
     * Moves the player by `step`, a draw from the range the current pace
     * selects. Only the player's position changes.
     */
    method MovePlayer(step: int)
      requires Valid()
      requires MinSteps(CurrentPace()) <= step <= MaxSteps(CurrentPace())
      modifies playerDog
      ensures playerDog.position == old(playerDog.position) + step
      ensures old(playerDog.position) + 1 <= playerDog.position <= old(playerDog.position) + 4
      ensures cpuDog1.position == old(cpuDog1.position) && cpuDog2.position == old(cpuDog2.position)
    {
      PaceRangeBounds(CurrentPace());
      playerDog.Move(step);
    }

    /**
     * Reacts to the key read this pass, if any: the space bar moves the
     * player once (with `step`), any other key or no key does nothing.
     */
    method HandleInput(key: Option<char>, step: int)
      requires Valid()
      requires key == Some(' ') ==> MinSteps(CurrentPace()) <= step <= MaxSteps(CurrentPace())
      modifies playerDog
      ensures playerDog.position == if key == Some(' ') then old(playerDog.position) + step
                                    else old(playerDog.position)
      ensures old(playerDog.position) <= playerDog.position <= old(playerDog.position) + 4
      ensures cpuDog1.position == old(cpuDog1.position) && cpuDog2.position == old(cpuDog2.position)
    {
      if key == Some(' ') {
        MovePlayer(step);
      }
    }

    /**
     * Once `CpuInterval` milliseconds have passed since the CPU dogs last
     * moved, moves both by the same `step` (a draw from 1..2) and restarts
     * the interval at `now`; before that, nothing changes.
     */
    method UpdateCpuDogs(now: int, step: int)
      requires Valid()
      requires now - lastCpuMoveTime >= CpuInterval ==> 1 <= step <= 2
      modifies this, cpuDog1, cpuDog2
      ensures gameOver == old(gameOver)
      ensures playerDog.position == old(playerDog.position)
      ensures CpuGap() == old(CpuGap())
      ensures if now - old(lastCpuMoveTime) >= CpuInterval then
          cpuDog1.position == old(cpuDog1.position) + step &&
          cpuDog2.position == old(cpuDog2.position) + step &&
          lastCpuMoveTime == now
        else
          cpuDog1.position == old(cpuDog1.position) &&
          cpuDog2.position == old(cpuDog2.position) &&
          lastCpuMoveTime == old(lastCpuMoveTime)
    {
      var elapsed := now - lastCpuMoveTime;
      if elapsed >= CpuInterval {
        cpuDog1.Move(step);
        cpuDog2.Move(step);
        lastCpuMoveTime := now;
      }
    }

    /**
     * The race's winner: the player exactly when the player is at or past
     * the finish line (the player is first in the track's order, so wins a
     * simultaneous finish), a CPU dog when only CPU dogs are, else null.
     */
    method GetWinner() returns (winner: Dog?)
      requires Valid() && Initialized()
      ensures winner == playerDog <==> playerDog.position >= TrackLength
      ensures winner == null <==> !AnyFinished(track.Positions(), TrackLength)
      ensures winner == cpuDog1 <==>
        playerDog.position < TrackLength && cpuDog1.position >= TrackLength
      ensures winner == cpuDog2 <==>
        playerDog.position < TrackLength && cpuDog1.position < TrackLength &&
        cpuDog2.position >= TrackLength
    {
      PositionsInOrder();
      winner := track.GetWinner();
      var ps := track.Positions();
      if playerDog.position >= TrackLength {
        FirstFinisherIsFirst(ps, TrackLength, 0);
      } else if cpuDog1.position >= TrackLength {
        FirstFinisherIsFirst(ps, TrackLength, 1);
      } else if cpuDog2.position >= TrackLength {
        FirstFinisherIsFirst(ps, TrackLength, 2);
      }
    }

    /**
     * One pass of the game loop: handle the key, move the CPU dogs when
     * their interval is up, then end the game if some dog has reached the
     * finish line, reporting whether the player won.
     */
    method Tick(t: TickInput) returns (outcome: Outcome)
      requires Valid() && Initialized() && !gameOver
      modifies this, playerDog, cpuDog1, cpuDog2
      ensures Snapshot() == Pass(old(Snapshot()), t)
      ensures gameOver <==> Over(Snapshot())
      ensures gameOver <==> AnyFinished(track.Positions(), TrackLength)
      ensures gameOver <==> !AllShortOfFinish()
      ensures outcome != Undecided <==> gameOver
      ensures outcome == Victory <==> gameOver && playerDog.position >= TrackLength
      ensures playerDog.position == if t.key == Some(' ') then
          old(playerDog.position) +
          Draw(MinSteps(old(CurrentPace())), MaxSteps(old(CurrentPace())), t.playerRoll)
        else old(playerDog.position)
      ensures if t.now - old(lastCpuMoveTime) >= CpuInterval then
          cpuDog1.position == old(cpuDog1.position) + Draw(1, 2, t.cpuRoll) &&
          cpuDog2.position == old(cpuDog2.position) + Draw(1, 2, t.cpuRoll) &&
          lastCpuMoveTime == t.now
        else
          cpuDog1.position == old(cpuDog1.position) &&
          cpuDog2.position == old(cpuDog2.position) &&
          lastCpuMoveTime == old(lastCpuMoveTime)
      ensures old(playerDog.position) <= playerDog.position <= old(playerDog.position) + 4
      ensures old(cpuDog1.position) <= cpuDog1.position <= old(cpuDog1.position) + 2
      ensures CpuGap() == old(CpuGap())
    {
      var pace := CurrentPace();
      PaceRangeBounds(pace);
      HandleInput(t.key, Draw(MinSteps(pace), MaxSteps(pace), t.playerRoll));
      UpdateCpuDogs(t.now, Draw(1, 2, t.cpuRoll));
      var finished := track.IsRaceFinished();
      FinishedIffSomeDogArrived();
      outcome := Undecided;
      if finished {
        gameOver := true;
        var winner := GetWinner();
        outcome := if winner != null && winner.isPlayer then Victory else Defeat;
      }
    }

    /**
     * The game loop, one pass per element of `ticks`, until the game is
     * over; `used` is the number of passes made, `outcome` whether the
     * player won the race that ended, and `history` the state after each
     * pass. Each pass follows from the one before, and every pass but the
     * last left all dogs short of the line: the loop stops at the first
     * pass that ends the race.
     */
    method Run(ticks: seq<TickInput>) returns (outcome: Outcome, used: nat, ghost history: seq<RaceState>)
      requires Valid() && Initialized()
      modifies this, playerDog, cpuDog1, cpuDog2
      ensures used <= |ticks| && |history| == used
      ensures used > 0 ==> history[0] == Pass(old(Snapshot()), ticks[0])
      ensures forall k :: 0 <= k < used - 1 ==> history[k + 1] == Pass(history[k], ticks[k + 1])
      ensures forall k :: 0 <= k < used - 1 ==> !Over(history[k])
      ensures used > 0 ==> history[used - 1] == Snapshot()
      ensures used == 0 ==> Snapshot() == old(Snapshot())
      ensures !old(gameOver) ==> (gameOver <==> used > 0 && Over(Snapshot()))
      ensures old(gameOver) ==> gameOver && used == 0 && outcome == Undecided
      ensures !old(gameOver) ==> (outcome == Undecided <==> !gameOver)
      ensures !gameOver ==> used == |ticks|
      ensures !gameOver && used > 0 ==> !AnyFinished(track.Positions(), TrackLength)
      ensures used < |ticks| ==> gameOver
      ensures outcome != Undecided ==> AnyFinished(track.Positions(), TrackLength)
      ensures outcome == Victory <==> outcome != Undecided && playerDog.position >= TrackLength
      ensures CpuGap() == old(CpuGap())
      ensures old(AllShortOfFinish()) ==> AllWithinOvershoot()
    {
      outcome, used, history := Undecided, 0, [];
      while !gameOver && used < |ticks|
        invariant Valid() && Initialized()
        invariant used <= |ticks| && |history| == used
        invariant used > 0 ==> history[0] == Pass(old(Snapshot()), ticks[0])
        invariant forall k :: 0 <= k < used - 1 ==> history[k + 1] == Pass(history[k], ticks[k + 1])
        invariant forall k :: 0 <= k < used - 1 ==> !Over(history[k])
        invariant used > 0 ==> history[used - 1] == Snapshot()
        invariant used == 0 ==> Snapshot() == old(Snapshot())
        invariant !old(gameOver) ==> (gameOver <==> used > 0 && Over(Snapshot()))
        invariant old(gameOver) ==> gameOver && used == 0
        invariant outcome != Undecided <==> gameOver && !old(gameOver)
        invariant used > 0 && !gameOver ==> AllShortOfFinish()
        invariant outcome != Undecided ==> !AllShortOfFinish()
        invariant outcome == Victory <==> outcome != Undecided && playerDog.position >= TrackLength
        invariant CpuGap() == old(CpuGap())
        invariant old(AllShortOfFinish()) ==> AllWithinOvershoot()
        invariant old(AllShortOfFinish()) && !gameOver ==> AllShortOfFinish()
        decreases |ticks| - used
      {
        outcome := Tick(ticks[used]);
        history := history + [Snapshot()];
        used := used + 1;
      }
      FinishedIffSomeDogArrived();
    }
  }
}
