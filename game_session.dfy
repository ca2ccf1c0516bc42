/** The running game of public/game.js as an object whose methods update its
    fields in place, one method per function of the game loop. Each method
    is proved to leave the state that the matching function of GameState
    gives, and to keep the session invariant. */
module GameSession {
  import opened Wrappers
  import opened Tiers
  import opened GameRules
  import opened GameState

  class Session {
    /** The canvas size; resizing is not modelled. */
    const width: real
    const height: real

    var mode: Mode
    var difficulty: Difficulty
    var playerScore: int
    var throwers: seq<Thrower>
    var dodgers: seq<Dodger>
    var activeBall: Option<Ball>
    var ballIdCounter: int
    var currentThrowerIndex: nat
    var ballInFlight: bool
    var gameRunning: bool
    /** `keyState._handled`, shared by all throw keys. */
    var throwHandled: bool

    /** Every ball id issued so far. */
    ghost var issued: set<int>
    /** Balls resolved since the teams were built. */
    ghost var resolutions: nat

    ghost function State(): View
      reads this
    {
      View(mode, difficulty, playerScore, throwers, dodgers, activeBall, ballIdCounter,
           currentThrowerIndex, ballInFlight, gameRunning, throwHandled)
    }

    /** The invariant without the terminal condition (it is broken for a
        moment between killing the last dodger and resolving the ball). */
    ghost predicate Sound()
      reads this
    {
      Wellformed(State()) && Tracked(State(), issued, resolutions)
    }

    ghost predicate Valid()
      reads this
    {
      Sound() && Consistent(State())
    }

    /** Page load: thrower mode, easy, nothing built, not running. */
    constructor(w: real, h: real)
      ensures Valid() && State() == Initial()
      ensures width == w && height == h && issued == {} && resolutions == 0
    {
      width, height := w, h;
      mode, difficulty, playerScore := ThrowerMode, Easy, 0;
      throwers, dodgers := [], [];
      activeBall, ballIdCounter, currentThrowerIndex := None, 0, 0;
      ballInFlight, gameRunning, throwHandled := false, false, false;
      issued, resolutions := {}, 0;
    }

    /** The mode buttons. */
    method SelectMode(m: Mode)
      requires Valid()
      modifies this
      ensures Valid() && State() == old(State()).(mode := m)
      ensures issued == old(issued) && resolutions == old(resolutions)
    {
      mode := m;
    }

    /** attemptThrow: true exactly when the throw is accepted. */
    method AttemptThrow(byIndex: int) returns (ok: bool)
      requires Valid()
      modifies this
      ensures Valid()
      ensures ok == ThrowAccepted(old(State()), byIndex)
      ensures State() == GameState.AttemptThrow(old(State()), byIndex)
      ensures resolutions == old(resolutions)
      ensures ok ==> activeBall.value.id !in old(issued) && issued == old(issued) + {activeBall.value.id}
      ensures !ok ==> issued == old(issued)
    {
      if ballInFlight || byIndex != currentThrowerIndex {
        return false;
      }
      if !(0 <= byIndex < |throwers|) || !throwers[byIndex].alive {
        return false;
      }
      var thrower := throwers[byIndex];
      ballIdCounter := ballIdCounter + 1;
      activeBall := Some(Ball(ballIdCounter, thrower.x, thrower.y + 30.0, 1, byIndex));
      ballInFlight := true;
      issued := issued + {ballIdCounter};
      return true;
    }

    /** aiThrow(aiObj, idx). */
    method AiThrow(aiObj: Thrower, idx: int)
      requires Valid() && throwers != []
      modifies this
      ensures Valid()
      ensures State() == GameState.AiThrow(old(State()), aiObj, idx)
      ensures resolutions == old(resolutions)
      ensures old(ballInFlight) || idx != old(currentThrowerIndex) ==> issued == old(issued)
      ensures !old(ballInFlight) && idx == old(currentThrowerIndex) ==>
        activeBall.value.id !in old(issued) && issued == old(issued) + {activeBall.value.id}
    {
      if ballInFlight {
        return;
      }
      if idx != currentThrowerIndex {
        return;
      }
      ballIdCounter := ballIdCounter + 1;
      activeBall := Some(Ball(ballIdCounter, aiObj.x, aiObj.y + 30.0, 1, idx));
      ballInFlight := true;
      issued := issued + {ballIdCounter};
    }

    /** The timer callback resolveBall schedules, as written: the turn index
        is read when the timer fires, so the callback's turn check compares
        the index with itself. */
    method FireScheduledThrow(next: Thrower)
      requires Valid() && throwers != []
      modifies this
      ensures Valid()
      ensures State() == ScheduledCallbackAsWritten(old(State()), next)
      ensures resolutions == old(resolutions)
    {
      AiThrow(next, currentThrowerIndex);
    }

    /** resolveBall: returns the thrower index of the AI throw to schedule
        (captured at resolution time), if the next thrower is AI. The turn
        index afterwards is TurnAfter(resolutions), which TurnAfterIsMod
        shows is the number of resolutions modulo the number of throwers. */
    method ResolveBall(hit: bool) returns (scheduled: Option<nat>)
      requires Sound() && ballInFlight
      modifies this
      ensures Valid()
      ensures State() == Resolve(old(State()), hit)
      ensures scheduled == ScheduledThrow(State())
      ensures resolutions == old(resolutions) + 1 && issued == old(issued)
      ensures currentThrowerIndex == TurnAfter(resolutions, |throwers|)
    {
      ghost var s0 := State();
      ResolveTracked(s0, hit, issued, resolutions);
      var owner := OwnerOf(throwers, activeBall.value.ownerIndex);
      var score := Credit(playerScore, hit, owner);
      var turn := NextTurn(currentThrowerIndex, |throwers|);
      var running := gameRunning;
      if !AnyAlive(dodgers) {
        running := false;
      }
      playerScore, activeBall, ballInFlight, currentThrowerIndex, gameRunning := score, None, false, turn, running;
      assert State() == Resolve(s0, hit);
      var next := throwers[turn];
      scheduled := if !next.isHuman then Some(turn) else None;
      resolutions := resolutions + 1;
    }

    /** updateBall: returns what resolveBall scheduled, when it ran. */
    method UpdateBall(dt: real) returns (scheduled: Option<nat>)
      requires Valid()
      modifies this
      ensures Valid()
      ensures State() == BallStep(old(State()), dt, height)
      ensures issued == old(issued)
      ensures scheduled.Some? ==> scheduled == ScheduledThrow(State())
      ensures resolutions == old(resolutions) + (if old(ballInFlight) && !ballInFlight then 1 else 0)
      ensures throwers != [] ==> currentThrowerIndex == TurnAfter(resolutions, |throwers|)
    {
      scheduled := None;
      if activeBall.None? {
        return;
      }
      ghost var s0 := State();
      var b := Advance(activeBall.value, dt);
      activeBall := Some(b);
      var i := 0;
      while i < |dodgers|
        invariant 0 <= i <= |dodgers|
        invariant FirstHit(dodgers, b, 0) == FirstHit(dodgers, b, i)
        invariant State() == s0.(activeBall := Some(b))
        invariant Sound() && issued == old(issued) && resolutions == old(resolutions)
      {
        var d := dodgers[i];
        if d.alive && SqDist(b.x, b.y, d.x, d.y) < HitRadius * HitRadius {
          KillLowersAliveCount(dodgers, i);
          dodgers := dodgers[i := d.(alive := false)];
          scheduled := ResolveBall(true);
          return;
        }
        i := i + 1;
      }
      if b.y > height + 40.0 || b.y < -40.0 {
        scheduled := ResolveBall(false);
      }
    }

    /** updateAIDodgers, with one set of random draws per dodger and one
        reading of the clock for the whole tick. */
    method UpdateAIDodgers(dt: real, now: int, rolls: seq<Roll>)
      requires Valid() && |rolls| == |dodgers|
      modifies this
      ensures Valid()
      ensures State() == DodgersStep(old(State()), dt, now, rolls, width)
      ensures issued == old(issued) && resolutions == old(resolutions)
    {
      ghost var s0 := State();
      ghost var target := DodgersStep(s0, dt, now, rolls, width).dodgers;
      var ball := activeBall;
      var params := Diff(difficulty);
      var ds := dodgers;
      var i := 0;
      while i < |ds|
        invariant 0 <= i <= |ds| == |s0.dodgers|
        invariant forall j :: 0 <= j < i ==> ds[j] == target[j]
        invariant forall j :: i <= j < |ds| ==> ds[j] == s0.dodgers[j]
      {
        ds := ds[i := AIDodgerStep(ds[i], ball, params.speed, width, dt, now, rolls[i])];
        i := i + 1;
      }
      dodgers := ds;
      assert dodgers == target;
    }

    /** The body of the throwers loop of updateHumans, for thrower i. */
    method HandleThrower(i: nat, step: real, keys: set<string>)
      requires Valid() && i < |throwers|
      modifies this
      ensures Valid()
      ensures State() == ThrowerTick(old(State()), i, MovedThrower(old(throwers[i]), keys, step, width, height), keys)
      ensures resolutions == old(resolutions)
    {
      var t := throwers[i];
      if t.isHuman && t.alive {
        var binding := t.control.value;
        t := MoveThrower(t, keys, step, width, height);
        throwers := throwers[i := t];
        if binding.throwKey in keys {
          if !throwHandled {
            if !ballInFlight && i == currentThrowerIndex {
              var ok := AttemptThrow(i);
            }
            throwHandled := true;
          }
        } else {
          throwHandled := false;
        }
      }
    }

    /** The throwers loop of updateHumans. */
    method UpdateHumanThrowers(step: real, keys: set<string>)
      requires Valid()
      modifies this
      ensures Valid()
      ensures State() == ThrowersPhase(old(State()), step, keys, width, height)
      ensures resolutions == old(resolutions)
    {
      ghost var s0 := State();
      ghost var ms := MovedThrowers(s0.throwers, keys, step, width, height);
      var i := 0;
      while i < |throwers|
        invariant 0 <= i <= |throwers| == |s0.throwers|
        invariant Valid() && resolutions == old(resolutions)
        invariant State() == ThrowersLoop(s0, i, ms, keys)
      {
        ThrowersLoopStep(s0, i, step, keys, width, height);
        HandleThrower(i, step, keys);
        i := i + 1;
      }
      ThrowersPhaseIsLoop(s0, step, keys, width, height);
    }

    /** The dodgers loop of updateHumans. */
    method UpdateHumanDodgers(step: real, keys: set<string>)
      requires Valid()
      modifies this
      ensures dodgers == MovedDodgers(old(dodgers), keys, step, width, height)
      ensures State() == old(State()).(dodgers := dodgers)
      ensures issued == old(issued) && resolutions == old(resolutions)
    {
      var ds := dodgers;
      ghost var ds0 := dodgers;
      var i := 0;
      while i < |ds|
        invariant 0 <= i <= |ds| == |ds0|
        invariant forall j :: 0 <= j < i ==> ds[j] == MovedDodger(ds0[j], keys, step, width, height)
        invariant forall j :: i <= j < |ds| ==> ds[j] == ds0[j]
      {
        var d := ds[i];
        if d.isHuman && d.alive && d.control.Some? {
          ds := ds[i := MoveDodger(d, keys, step, width, height)];
        }
        i := i + 1;
      }
      dodgers := ds;
    }

    /** updateHumans: human throwers move and may throw, then human dodgers
        move, `dt` milliseconds at 300 px per second. */
    method UpdateHumans(dt: real, keys: set<string>)
      requires Valid()
      modifies this
      ensures Valid()
      ensures State() == HumansStep(old(State()), dt, keys, width, height)
      ensures resolutions == old(resolutions)
    {
      var step := 300.0 * (dt / 1000.0);
      UpdateHumanThrowers(step, keys);
      UpdateHumanDodgers(step, keys);
    }

    /** frame: nothing when the game is not running; otherwise humans, AI
        dodgers, then the ball. Returns the AI throw resolveBall scheduled,
        if any. */
    method Frame(dt: real, now: int, keys: set<string>, rolls: seq<Roll>) returns (scheduled: Option<nat>)
      requires Valid() && |rolls| == |dodgers|
      modifies this
      ensures Valid()
      ensures State() == Tick(old(State()), dt, now, keys, rolls, width, height)
      ensures resolutions == old(resolutions) || resolutions == old(resolutions) + 1
      ensures throwers != [] ==> currentThrowerIndex == TurnAfter(resolutions, |throwers|)
    {
      scheduled := None;
      if !gameRunning {
        return;
      }
      UpdateHumans(dt, keys);
      UpdateAIDodgers(dt, now, rolls);
      scheduled := UpdateBall(dt);
    }

    /** The 700 ms interval. */
    method ObserveTurnForAI()
      requires Valid()
      modifies this
      ensures Valid()
      ensures State() == ObserveTurn(old(State()))
      ensures resolutions == old(resolutions)
    {
      if !gameRunning {
        return;
      }
      if currentThrowerIndex < |throwers| {
        var t := throwers[currentThrowerIndex];
        if !t.isHuman && !ballInFlight {
          AiThrow(t, currentThrowerIndex);
        }
      }
    }

    /** buildTeams: push the throwers of the roster and place them, push the
        four dodgers, copy the tier's DIFF row onto every dodger, and give
        the first thrower the turn. */
    method BuildTeams(d: Difficulty, humanThrowers: int, humanDodgers: int)
      requires Valid()
      requires mode == ThrowerMode ==> humanThrowers >= 1
      modifies this
      ensures Valid()
      ensures State() == GameState.BuildTeams(old(State()), d, humanThrowers, humanDodgers, width, height)
      ensures resolutions == 0 && issued == old(issued)
    {
      ghost var s0 := State();
      var ts := PlaceThrowers(mode, humanThrowers, width);
      var ds := RecruitDodgers(mode, humanDodgers, d, width, height);
      difficulty := d;
      throwers := ts;
      dodgers := ds;
      currentThrowerIndex := 0;
      resolutions := 0;
      assert State() == GameState.BuildTeams(s0, d, humanThrowers, humanDodgers, width, height);
    }

    /** The start button, once /api/start has answered: a blank name does
        nothing; otherwise the mode and tier are taken, the teams built and
        the game started. */
    method Start(name: string, m: Mode, d: Difficulty, humanThrowers: int, humanDodgers: int)
      requires Valid()
      requires m == ThrowerMode ==> humanThrowers >= 1
      modifies this
      ensures Valid()
      ensures State() == GameState.Start(old(State()), name, m, d, humanThrowers, humanDodgers, width, height)
      ensures issued == old(issued)
      ensures !Blank(name) ==> resolutions == 0
      ensures Blank(name) ==> resolutions == old(resolutions)
    {
      var i := 0;
      while i < |name| && IsSpace(name[i])
        invariant 0 <= i <= |name|
        invariant forall j :: 0 <= j < i ==> IsSpace(name[j])
      {
        i := i + 1;
      }
      if i == |name| {
        return;
      }
      mode := m;
      difficulty := d;
      BuildTeams(d, humanThrowers, humanDodgers);
      AliveCountZero(dodgers);
      gameRunning := true;
    }

    /** The exit button. */
    method Exit()
      requires Valid()
      modifies this
      ensures Valid()
      ensures State() == GameState.Exit(old(State()))
      ensures resolutions == old(resolutions) && issued == old(issued)
    {
      gameRunning := false;
      activeBall := None;
      ballInFlight := false;
      playerScore := 0;
    }
  }

  /** The throwers loop of buildTeams: the roster placed on the top line. */
  method PlaceThrowers(mode: Mode, humanThrowers: int, W: real) returns (ts: seq<Thrower>)
    ensures ts == TeamThrowers(mode, humanThrowers, W)
  {
    var roster := ThrowerRoster(mode, humanThrowers, W);
    ts := [];
    var i := 0;
    while i < |roster|
      invariant 0 <= i <= |roster| && |ts| == i
      invariant forall j :: 0 <= j < i ==> ts[j] == PlaceThrower(roster[j], j, W)
    {
      ts := ts + [PlaceThrower(roster[i], i, W)];
      i := i + 1;
    }
  }

  /** The dodgers loops of buildTeams: four slots recruited, then the
      tier's DIFF row copied onto each. */
  method RecruitDodgers(mode: Mode, humanDodgers: int, d: Difficulty, W: real, H: real) returns (ds: seq<Dodger>)
    ensures ds == TeamDodgers(mode, humanDodgers, d, W, H)
  {
    ds := [];
    var i := 0;
    while i < 4
      invariant 0 <= i <= 4 && |ds| == i
      invariant forall j :: 0 <= j < i ==> ds[j] == RecruitDodger(mode, humanDodgers, j, W, H)
    {
      ds := ds + [RecruitDodger(mode, humanDodgers, i, W, H)];
      i := i + 1;
    }
    i := 0;
    while i < |ds|
      invariant 0 <= i <= |ds| == 4
      invariant forall j :: 0 <= j < i ==> ds[j] == Tune(RecruitDodger(mode, humanDodgers, j, W, H), Diff(d))
      invariant forall j :: i <= j < 4 ==> ds[j] == RecruitDodger(mode, humanDodgers, j, W, H)
    {
      ds := ds[i := Tune(ds[i], Diff(d))];
      i := i + 1;
    }
  }

}
