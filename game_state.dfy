/** The session state of the ball game (the module-level variables of
    public/game.js) as one value, and one function per operation giving the
    state that operation leaves behind. The imperative session in
    GameSession is proved to follow these functions; the properties of the
    game (single flight, turn rotation, score monotonicity, the terminal
    condition, team composition) are proved here about them. */
module GameState {
  import opened Wrappers
  import opened Tiers
  import opened GameRules

  /** mode, difficulty, playerScore, throwers, dodgers, activeBall,
      ballIdCounter, currentThrowerIndex, ballInFlight, gameRunning and the
      shared throw-key flag `keyState._handled`. */
  datatype View = View(
    mode: Mode, difficulty: Difficulty, playerScore: int,
    throwers: seq<Thrower>, dodgers: seq<Dodger>,
    activeBall: Option<Ball>, ballIdCounter: int,
    currentThrowerIndex: nat, ballInFlight: bool, gameRunning: bool,
    throwHandled: bool)

  /** Every dodger carries its DIFF row. */
  predicate Tuned(ds: seq<Dodger>)
  {
    forall i :: 0 <= i < |ds| ==> ds[i].tuning.Some?
  }

  /** Every human thrower has a key binding. */
  predicate Bound(ts: seq<Thrower>)
  {
    forall i :: 0 <= i < |ts| ==> ts[i].isHuman ==> ts[i].control.Some?
  }

  /** The invariant of the session, apart from the terminal condition:
      a ball is active exactly while one is in flight and carries the last
      issued id, and the turn index points at a thrower. */
  predicate Wellformed(s: View)
  {
    && (s.activeBall.Some? <==> s.ballInFlight)
    && (s.activeBall.Some? ==> s.activeBall.value.id == s.ballIdCounter)
    && (s.throwers == [] ==> s.currentThrowerIndex == 0 && !s.ballInFlight)
    && (s.throwers != [] ==> s.currentThrowerIndex < |s.throwers|)
    && Tuned(s.dodgers)
    && Bound(s.throwers)
  }

  /** ... and a running game always has a living dodger. */
  predicate Consistent(s: View)
  {
    Wellformed(s) && (s.gameRunning ==> AnyAlive(s.dodgers))
  }

  /** The bookkeeping a session keeps beside its state: every issued ball
      id is at most the counter, the active ball's id has been issued, and
      the turn index is the one `resolutions` rotations from the first
      thrower give. */
  ghost predicate Tracked(s: View, issued: set<int>, resolutions: nat)
  {
    && (forall id :: id in issued ==> id <= s.ballIdCounter)
    && (s.activeBall.Some? ==> s.activeBall.value.id in issued)
    && (s.throwers != [] ==> s.currentThrowerIndex == TurnAfter(resolutions, |s.throwers|))
  }

  /** The state on page load (the thrower-mode button is clicked at load). */
  function Initial(): (s: View)
    ensures Consistent(s) && !s.gameRunning && !s.ballInFlight && s.playerScore == 0
  {
    View(ThrowerMode, Easy, 0, [], [], None, 0, 0, false, false, false)
  }

  // ---------------------------------------------------------------------
  // Throwing
  // ---------------------------------------------------------------------

  /** Put a new ball in flight from thrower t, owned by index idx, with the
      next id (`++ballIdCounter`). */
  function Spawn(s: View, t: Thrower, idx: nat): (r: View)
    ensures r.ballInFlight && r.activeBall.Some? && r.activeBall.value.ownerIndex == idx
    ensures r.activeBall.value.id == r.ballIdCounter == s.ballIdCounter + 1
    ensures r.activeBall.value.x == t.x && r.activeBall.value.y == t.y + 30.0
    ensures r.activeBall.value.dir == 1
    ensures r == s.(activeBall := r.activeBall, ballIdCounter := r.ballIdCounter, ballInFlight := true)
  {
    var id := s.ballIdCounter + 1;
    s.(ballIdCounter := id, activeBall := Some(Ball(id, t.x, t.y + 30.0, 1, idx)), ballInFlight := true)
  }

  /** The guards of attemptThrow: no ball in flight, the thrower's turn,
      and the thrower exists and is alive. */
  predicate ThrowAccepted(s: View, byIndex: int)
  {
    && !s.ballInFlight
    && byIndex == s.currentThrowerIndex
    && 0 <= byIndex < |s.throwers|
    && s.throwers[byIndex].alive
  }

  /** attemptThrow: a refused throw changes nothing; an accepted one puts a
      ball owned by the thrower in flight. */
  function AttemptThrow(s: View, byIndex: int): (r: View)
    ensures Consistent(s) ==> Consistent(r)
    ensures !ThrowAccepted(s, byIndex) ==> r == s
    ensures ThrowAccepted(s, byIndex) ==>
      r.ballInFlight && r.activeBall.Some? && r.activeBall.value.ownerIndex == byIndex && r.ballIdCounter == s.ballIdCounter + 1
    ensures ThrowAccepted(s, byIndex) ==> r == Spawn(s, s.throwers[byIndex], byIndex)
    ensures r.playerScore == s.playerScore && r.currentThrowerIndex == s.currentThrowerIndex
  {
    if ThrowAccepted(s, byIndex) then Spawn(s, s.throwers[byIndex], byIndex) else s
  }

  /** aiThrow(aiObj, idx): only the in-flight flag and the turn index are
      checked; neither whether aiObj is alive nor whether the game runs. */
  function AiThrow(s: View, aiObj: Thrower, idx: int): (r: View)
    requires Consistent(s) && s.throwers != []
    ensures Consistent(r)
    ensures s.ballInFlight || idx != s.currentThrowerIndex ==> r == s
    ensures !s.ballInFlight && idx == s.currentThrowerIndex ==>
      r == Spawn(s, aiObj, s.currentThrowerIndex) && r.activeBall.value.ownerIndex == idx
  {
    if s.ballInFlight || idx != s.currentThrowerIndex then s
    else Spawn(s, aiObj, s.currentThrowerIndex)
  }

  /** Single flight: while a ball is in flight every further throw, by any
      thrower and by either route, is refused and changes nothing. */
  lemma SingleFlight(s: View, t: Thrower, idx: nat, byIndex: int, aiObj: Thrower, aiIdx: int)
    requires Consistent(s) && s.throwers != []
    ensures var r := Spawn(s, t, idx);
      && !ThrowAccepted(r, byIndex)
      && (Consistent(r) ==> AttemptThrow(r, byIndex) == r && AiThrow(r, aiObj, aiIdx) == r)
  {
  }

  /** Ball ids are fresh and increasing: the spawned ball's id exceeds every
      id issued before it. */
  lemma FreshBallIds(s: View, t: Thrower, idx: nat, issued: set<int>)
    requires forall id :: id in issued ==> id <= s.ballIdCounter
    ensures var r := Spawn(s, t, idx);
      && r.activeBall.value.id !in issued
      && forall id :: id in issued + {r.activeBall.value.id} ==> id <= r.ballIdCounter
  {
  }

  // ---------------------------------------------------------------------
  // Resolution
  // ---------------------------------------------------------------------

  /** resolveBall: credit a hit by a human-owned ball, clear the ball,
      rotate the turn and end the game (`endGame`, modelled as clearing
      gameRunning) when no dodger is alive. */
  function Resolve(s: View, hit: bool): (r: View)
    requires Wellformed(s) && s.ballInFlight
    ensures Consistent(r)
    ensures r.activeBall.None? && !r.ballInFlight
    ensures r.currentThrowerIndex == NextTurn(s.currentThrowerIndex, |s.throwers|)
    ensures s.playerScore <= r.playerScore <= s.playerScore + 1
    ensures r.playerScore == s.playerScore + 1 <==>
      hit && OwnerOf(s.throwers, s.activeBall.value.ownerIndex).Some?
          && OwnerOf(s.throwers, s.activeBall.value.ownerIndex).value.isHuman
    ensures r.gameRunning <==> s.gameRunning && AnyAlive(s.dodgers)
    ensures r == s.(playerScore := r.playerScore, activeBall := None, ballInFlight := false,
                    currentThrowerIndex := r.currentThrowerIndex, gameRunning := r.gameRunning)
  {
    var owner := OwnerOf(s.throwers, s.activeBall.value.ownerIndex);
    s.(playerScore := Credit(s.playerScore, hit, owner),
       activeBall := None, ballInFlight := false,
       currentThrowerIndex := NextTurn(s.currentThrowerIndex, |s.throwers|),
       gameRunning := if AnyAlive(s.dodgers) then s.gameRunning else false)
  }

  /** Resolving a ball keeps the bookkeeping, one rotation further on. */
  lemma ResolveTracked(s: View, hit: bool, issued: set<int>, k: nat)
    requires Wellformed(s) && s.ballInFlight && Tracked(s, issued, k)
    ensures Tracked(Resolve(s, hit), issued, k + 1)
  {
    assert TurnAfter(k + 1, |s.throwers|) == NextTurn(TurnAfter(k, |s.throwers|), |s.throwers|);
  }

  /** The AI throw resolveBall schedules: the new current thrower's index
      when that thrower is AI. */
  function ScheduledThrow(r: View): (next: Option<nat>)
    requires Wellformed(r)
    ensures next.Some? <==> r.throwers != [] && !r.throwers[r.currentThrowerIndex].isHuman
    ensures next.Some? ==> next.value == r.currentThrowerIndex
  {
    if r.throwers != [] && !r.throwers[r.currentThrowerIndex].isHuman
    then Some(r.currentThrowerIndex) else None
  }

  // ---------------------------------------------------------------------
  // Ball step
  // ---------------------------------------------------------------------

  /** updateBall: move the ball, kill the first living dodger it touches
      and resolve a hit; otherwise resolve a miss once it has left the
      screen. A hit takes priority over leaving the screen. */
  function BallStep(s: View, dt: real, H: real): (r: View)
    requires Consistent(s)
    ensures Consistent(r)
    ensures |r.dodgers| == |s.dodgers|
    ensures forall j :: 0 <= j < |s.dodgers| && !s.dodgers[j].alive ==> r.dodgers[j] == s.dodgers[j]
    ensures forall j, k :: 0 <= j < k < |s.dodgers| && r.dodgers[j] != s.dodgers[j] ==> r.dodgers[k] == s.dodgers[k]
    ensures AliveCount(r.dodgers) >= AliveCount(s.dodgers) - 1
    ensures s.playerScore <= r.playerScore <= s.playerScore + 1
    ensures r.gameRunning <==> s.gameRunning && AnyAlive(r.dodgers)
    ensures r.ballIdCounter == s.ballIdCounter && r.throwers == s.throwers
    ensures s.activeBall.None? ==> r == s
    ensures r.ballInFlight ==> r == s.(activeBall := Some(Advance(s.activeBall.value, dt)))
    ensures s.ballInFlight && !r.ballInFlight ==>
      r.currentThrowerIndex == NextTurn(s.currentThrowerIndex, |s.throwers|)
  {
    if s.activeBall.None? then s
    else
      var b := Advance(s.activeBall.value, dt);
      var moved := s.(activeBall := Some(b));
      match FirstHit(s.dodgers, b, 0)
      case Some(i) =>
        KillLowersAliveCount(s.dodgers, i);
        Resolve(moved.(dodgers := Killed(s.dodgers, i)), true)
      case None =>
        if OutOfBounds(b, H) then Resolve(moved, false) else moved
  }

  /** At most one dodger dies per tick, and it is the first living dodger
      in list order that the moved ball touches. */
  lemma BallStepKillsFirstTouched(s: View, dt: real, H: real, i: nat)
    requires Consistent(s) && s.activeBall.Some?
    requires i < |s.dodgers| && s.dodgers[i].alive && !BallStep(s, dt, H).dodgers[i].alive
    ensures var b := Advance(s.activeBall.value, dt);
      && Touches(b, s.dodgers[i])
      && (forall j :: 0 <= j < i ==> !Touches(b, s.dodgers[j]))
      && BallStep(s, dt, H).dodgers == Killed(s.dodgers, i)
  {
    var b := Advance(s.activeBall.value, dt);
    match FirstHit(s.dodgers, b, 0)
    case Some(k) =>
      assert k == i;
    case None =>
  }

  /** Conversely, the first dodger in list order that the moved ball
      touches is killed, and the throw is resolved as a hit. */
  lemma FirstTouchedIsKilled(s: View, dt: real, H: real, i: nat)
    requires Consistent(s) && s.activeBall.Some?
    requires i < |s.dodgers| && Touches(Advance(s.activeBall.value, dt), s.dodgers[i])
    requires forall j :: 0 <= j < i ==> !Touches(Advance(s.activeBall.value, dt), s.dodgers[j])
    ensures var moved := s.(activeBall := Some(Advance(s.activeBall.value, dt)));
      BallStep(s, dt, H) == Resolve(moved.(dodgers := Killed(s.dodgers, i)), true)
  {
  }

  /** A ball that touches nobody and has left the screen is resolved as a
      miss. */
  lemma MissOffScreenResolves(s: View, dt: real, H: real)
    requires Consistent(s) && s.activeBall.Some?
    requires forall j :: 0 <= j < |s.dodgers| ==> !Touches(Advance(s.activeBall.value, dt), s.dodgers[j])
    requires OutOfBounds(Advance(s.activeBall.value, dt), H)
    ensures BallStep(s, dt, H) == Resolve(s.(activeBall := Some(Advance(s.activeBall.value, dt))), false)
  {
  }

  /** A ball that touches no living dodger and is still on screen keeps
      flying: nothing but its position changes. */
  lemma MissOnScreenKeepsFlying(s: View, dt: real, H: real)
    requires Consistent(s) && s.activeBall.Some?
    requires forall j :: 0 <= j < |s.dodgers| ==> !Touches(Advance(s.activeBall.value, dt), s.dodgers[j])
    requires !OutOfBounds(Advance(s.activeBall.value, dt), H)
    ensures BallStep(s, dt, H) == s.(activeBall := Some(Advance(s.activeBall.value, dt)))
  {
    var b := Advance(s.activeBall.value, dt);
    match FirstHit(s.dodgers, b, 0)
    case Some(k) =>
      assert false;
    case None =>
  }

  // ---------------------------------------------------------------------
  // AI dodgers
  // ---------------------------------------------------------------------

  /** updateAIDodgers: every dodger takes one AI step (humans and the dead
      keep still) with its own random draws, at the current tier's speed. */
  function DodgersStep(s: View, dt: real, now: int, rolls: seq<Roll>, W: real): (r: View)
    requires Consistent(s) && |rolls| == |s.dodgers|
    ensures Consistent(r)
    ensures r == s.(dodgers := r.dodgers) && |r.dodgers| == |s.dodgers|
    ensures forall i :: 0 <= i < |s.dodgers| ==>
      r.dodgers[i].alive == s.dodgers[i].alive && r.dodgers[i].isHuman == s.dodgers[i].isHuman
    ensures forall i :: 0 <= i < |s.dodgers| && (s.dodgers[i].isHuman || !s.dodgers[i].alive) ==>
      r.dodgers[i] == s.dodgers[i]
    ensures forall i :: 0 <= i < |s.dodgers| ==>
      r.dodgers[i] == AIDodgerStep(s.dodgers[i], s.activeBall, Diff(s.difficulty).speed, W, dt, now, rolls[i])
  {
    var ds := seq(|s.dodgers|, i requires 0 <= i < |s.dodgers| && Tuned(s.dodgers) =>
      AIDodgerStep(s.dodgers[i], s.activeBall, Diff(s.difficulty).speed, W, dt, now, rolls[i]));
    assert forall i :: 0 <= i < |ds| ==> ds[i].alive == s.dodgers[i].alive;
    assert AnyAlive(s.dodgers) ==> AnyAlive(ds);
    s.(dodgers := ds)
  }

  // ---------------------------------------------------------------------
  // Human players
  // ---------------------------------------------------------------------

  /** ms is ts after a movement step: only positions change, and only
      those of living humans. */
  predicate MovesOf(ms: seq<Thrower>, ts: seq<Thrower>)
  {
    && |ms| == |ts|
    && forall j :: 0 <= j < |ts| ==>
      ms[j] == ts[j].(x := ms[j].x, y := ms[j].y) && (!HumanAlive(ts[j]) ==> ms[j] == ts[j])
  }

  /** A thrower after the movement step: only a living human moves. */
  function MovedThrower(t: Thrower, keys: set<string>, step: real, W: real, H: real): (r: Thrower)
    requires t.isHuman ==> t.control.Some?
    ensures r == t.(x := r.x, y := r.y) && (!HumanAlive(t) ==> r == t)
    ensures HumanAlive(t) ==> r == MoveThrower(t, keys, step, W, H)
  {
    if HumanAlive(t) then MoveThrower(t, keys, step, W, H) else t
  }

  /** Every living human thrower takes one movement step. */
  function MovedThrowers(ts: seq<Thrower>, keys: set<string>, step: real, W: real, H: real): (r: seq<Thrower>)
    requires Bound(ts)
    ensures MovesOf(r, ts) && Bound(r)
    ensures forall j :: 0 <= j < |ts| ==> r[j] == MovedThrower(ts[j], keys, step, W, H)
  {
    seq(|ts|, i requires 0 <= i < |ts| => MovedThrower(ts[i], keys, step, W, H))
  }

  /** After the movement step every living human thrower is inside
      [30, W-30] × [30, H-30]. */
  lemma MovedThrowersStayInArea(ts: seq<Thrower>, keys: set<string>, step: real, W: real, H: real)
    requires Bound(ts) && W >= 60.0 && H >= 60.0
    ensures var r := MovedThrowers(ts, keys, step, W, H);
      forall j :: 0 <= j < |ts| && HumanAlive(ts[j]) ==> 30.0 <= r[j].x <= W - 30.0 && 30.0 <= r[j].y <= H - 30.0
  {
  }

  /** Every living human dodger with a binding takes one movement step. */
  function MovedDodgers(ds: seq<Dodger>, keys: set<string>, step: real, W: real, H: real): (r: seq<Dodger>)
    ensures |r| == |ds|
    ensures forall i :: 0 <= i < |ds| ==> r[i] == MovedDodger(ds[i], keys, step, W, H)
    ensures forall i :: 0 <= i < |ds| && ds[i].isHuman && ds[i].alive && ds[i].control.Some? ==>
      r[i] == MoveDodger(ds[i], keys, step, W, H)
    ensures forall i :: 0 <= i < |ds| ==> r[i] == ds[i].(x := r[i].x, y := r[i].y)
    ensures forall i :: 0 <= i < |ds| && !(ds[i].isHuman && ds[i].alive) ==> r[i] == ds[i]
    ensures H >= 0.0 ==> forall i :: 0 <= i < |ds| && ds[i].isHuman && ds[i].alive && ds[i].control.Some? ==>
      H * 0.4 <= r[i].y <= H * 0.6
  {
    seq(|ds|, i requires 0 <= i < |ds| => MovedDodger(ds[i], keys, step, W, H))
  }

  /** A dodger after the movement step: only a living human with a binding
      moves, by its keys, and it stays in the middle band. */
  function MovedDodger(d: Dodger, keys: set<string>, step: real, W: real, H: real): (r: Dodger)
    ensures r == d.(x := r.x, y := r.y)
    ensures d.isHuman && d.alive && d.control.Some? ==> r == MoveDodger(d, keys, step, W, H)
    ensures !(d.isHuman && d.alive) ==> r == d
    ensures H >= 0.0 && d.isHuman && d.alive && d.control.Some? ==> H * 0.4 <= r.y <= H * 0.6
  {
    if d.isHuman && d.alive && d.control.Some? then MoveDodger(d, keys, step, W, H) else d
  }

  /** The shared `keyState._handled` flag after the throwers loop has seen
      the throwers ts: each living human thrower sets it when its throw key
      is down and clears it when the key is up. */
  function HandledAfter(ts: seq<Thrower>, keys: set<string>, handled: bool): bool
    requires Bound(ts)
  {
    if ts == [] then handled
    else
      var t := ts[|ts| - 1];
      var before := HandledAfter(ts[..|ts| - 1], keys, handled);
      if !HumanAlive(t) then before else t.control.value.throwKey in keys
  }

  /** The throwers loop fires a throw exactly once in a tick: for the
      current thrower, when it is a living human, its throw key is down, no
      ball is in flight, and the flag is clear when the loop reaches it. */
  predicate ThrowFires(s: View, keys: set<string>)
    requires Bound(s.throwers)
  {
    var c := s.currentThrowerIndex;
    && !s.ballInFlight
    && c < |s.throwers|
    && HumanAlive(s.throwers[c])
    && s.throwers[c].control.value.throwKey in keys
    && !HandledAfter(s.throwers[..c], keys, s.throwHandled)
  }

  /** One iteration of the throwers loop of updateHumans, for thrower i,
      whose moved position is m: a living human thrower moves; while its
      throw key is down and the shared flag is clear it tries to throw (when
      no ball is in flight and it has the turn) and sets the flag; a
      released key clears the flag. */
  function ThrowerTick(s: View, i: nat, m: Thrower, keys: set<string>): (r: View)
    requires i < |s.throwers| && Bound(s.throwers) && (m.isHuman ==> m.control.Some?)
    ensures |r.throwers| == |s.throwers| && Bound(r.throwers)
  {
    var t := s.throwers[i];
    if !HumanAlive(t) then s
    else
      var s1 := s.(throwers := s.throwers[i := m]);
      if t.control.value.throwKey !in keys then s1.(throwHandled := false)
      else if s1.throwHandled then s1
      else
        var s2 := if !s1.ballInFlight && i == s1.currentThrowerIndex then AttemptThrow(s1, i) else s1;
        s2.(throwHandled := true)
  }

  /** The first i iterations of the throwers loop, ms being the line-up
      after its movement step. */
  function ThrowersLoop(s: View, i: nat, ms: seq<Thrower>, keys: set<string>): (r: View)
    requires i <= |s.throwers| == |ms| && Bound(s.throwers) && Bound(ms)
    ensures |r.throwers| == |s.throwers| && Bound(r.throwers)
  {
    if i == 0 then s
    else ThrowerTick(ThrowersLoop(s, i - 1, ms, keys), i - 1, ms[i - 1], keys)
  }

  /** What the throwers loop has done after i iterations, in closed form:
      the first i throwers have moved, the flag is the one HandledAfter
      gives, and the throw ThrowFires describes has happened once the loop
      has passed the current thrower, and not before. */
  function LoopedThrowers(s: View, i: nat, ms: seq<Thrower>, keys: set<string>): (r: View)
    requires i <= |s.throwers| == |ms| && Bound(s.throwers) && Bound(ms)
    ensures |r.throwers| == |s.throwers| && Bound(r.throwers)
  {
    var c := s.currentThrowerIndex;
    var moved := s.(throwers := ms[..i] + s.throwers[i..],
                    throwHandled := HandledAfter(s.throwers[..i], keys, s.throwHandled));
    assert forall j :: 0 <= j < |moved.throwers| ==>
      moved.throwers[j] == (if j < i then ms[j] else s.throwers[j]);
    if ThrowFires(s, keys) && c < i then Spawn(moved, ms[c], c) else moved
  }

  /** Splicing one more element of `done` over `orig`. */
  lemma SpliceStep<T>(done: seq<T>, orig: seq<T>, k: nat)
    requires |done| == |orig| && k < |orig|
    ensures (done[..k] + orig[k..])[k] == orig[k]
    ensures (done[..k] + orig[k..])[k := done[k]] == done[..k + 1] + orig[k + 1..]
    ensures done[k] == orig[k] ==> done[..k] + orig[k..] == done[..k + 1] + orig[k + 1..]
    ensures orig[..k + 1][..k] == orig[..k] && orig[..k + 1][k] == orig[k]
  {
    assert (done[..k] + orig[k..])[k := done[k]] == done[..k + 1] + orig[k + 1..];
    assert orig[..k + 1][..k] == orig[..k];
  }

  /** What one iteration of the loop starts from. */
  lemma ThrowerTickFacts(s: View, k: nat, ms: seq<Thrower>, keys: set<string>)
    requires k < |s.throwers| && Bound(s.throwers) && Bound(ms) && MovesOf(ms, s.throwers)
    ensures var p := LoopedThrowers(s, k, ms, keys);
      && p.throwers[k] == s.throwers[k]
      && p.throwHandled == HandledAfter(s.throwers[..k], keys, s.throwHandled)
      && p.throwers[k := ms[k]] == ms[..k + 1] + s.throwers[k + 1..]
      && s.throwers[..k + 1][..k] == s.throwers[..k]
      && s.throwers[..k + 1][k] == s.throwers[k]
      && (!HumanAlive(s.throwers[k]) ==> p.throwers == ms[..k + 1] + s.throwers[k + 1..])
  {
    SpliceStep(ms, s.throwers, k);
  }

  /** One iteration for a thrower that is not a living human. */
  lemma IdleThrowerTick(s: View, k: nat, ms: seq<Thrower>, keys: set<string>)
    requires k < |s.throwers| && Bound(s.throwers) && Bound(ms) && MovesOf(ms, s.throwers)
    requires !HumanAlive(s.throwers[k])
    ensures ThrowerTick(LoopedThrowers(s, k, ms, keys), k, ms[k], keys) == LoopedThrowers(s, k + 1, ms, keys)
  {
    ThrowerTickFacts(s, k, ms, keys);
    var p := LoopedThrowers(s, k, ms, keys);
    assert s.currentThrowerIndex == k ==> !ThrowFires(s, keys);
    assert ThrowerTick(p, k, ms[k], keys) == p;
  }

  /** One iteration for a living human thrower whose throw key is up. */
  lemma ReleasedThrowerTick(s: View, k: nat, ms: seq<Thrower>, keys: set<string>)
    requires k < |s.throwers| && Bound(s.throwers) && Bound(ms) && MovesOf(ms, s.throwers)
    requires HumanAlive(s.throwers[k]) && s.throwers[k].control.value.throwKey !in keys
    ensures ThrowerTick(LoopedThrowers(s, k, ms, keys), k, ms[k], keys) == LoopedThrowers(s, k + 1, ms, keys)
  {
    ThrowerTickFacts(s, k, ms, keys);
    var p := LoopedThrowers(s, k, ms, keys);
    assert s.currentThrowerIndex == k ==> !ThrowFires(s, keys);
    assert ThrowerTick(p, k, ms[k], keys) == p.(throwers := p.throwers[k := ms[k]], throwHandled := false);
  }

  /** One iteration for a living human thrower whose throw key is down
      while the flag is already set. */
  lemma HeldThrowerTick(s: View, k: nat, ms: seq<Thrower>, keys: set<string>)
    requires k < |s.throwers| && Bound(s.throwers) && Bound(ms) && MovesOf(ms, s.throwers)
    requires HumanAlive(s.throwers[k]) && s.throwers[k].control.value.throwKey in keys
    requires HandledAfter(s.throwers[..k], keys, s.throwHandled)
    ensures ThrowerTick(LoopedThrowers(s, k, ms, keys), k, ms[k], keys) == LoopedThrowers(s, k + 1, ms, keys)
  {
    ThrowerTickFacts(s, k, ms, keys);
  }

  /** One iteration for a living human thrower whose throw key is down
      while the flag is clear: the throw is attempted. */
  lemma PressedThrowerTick(s: View, k: nat, ms: seq<Thrower>, keys: set<string>)
    requires k < |s.throwers| && Bound(s.throwers) && Bound(ms) && MovesOf(ms, s.throwers)
    requires HumanAlive(s.throwers[k]) && s.throwers[k].control.value.throwKey in keys
    requires !HandledAfter(s.throwers[..k], keys, s.throwHandled)
    ensures ThrowerTick(LoopedThrowers(s, k, ms, keys), k, ms[k], keys) == LoopedThrowers(s, k + 1, ms, keys)
  {
    ThrowerTickFacts(s, k, ms, keys);
    var p := LoopedThrowers(s, k, ms, keys);
    var p1 := p.(throwers := p.throwers[k := ms[k]]);
    var c := s.currentThrowerIndex;
    var moved := s.(throwers := ms[..k + 1] + s.throwers[k + 1..],
                    throwHandled := HandledAfter(s.throwers[..k + 1], keys, s.throwHandled));
    assert moved.throwHandled;
    if ThrowFires(s, keys) && c < k {
      assert p == Spawn(s.(throwers := p.throwers, throwHandled := p.throwHandled), ms[c], c);
      assert ThrowerTick(p, k, ms[k], keys) == p1.(throwHandled := true);
      assert LoopedThrowers(s, k + 1, ms, keys) == Spawn(moved, ms[c], c);
    } else if ThrowFires(s, keys) && c == k {
      assert p == s.(throwers := p.throwers, throwHandled := p.throwHandled);
      assert ThrowerTick(p, k, ms[k], keys) == Spawn(p1, ms[k], k).(throwHandled := true);
      assert LoopedThrowers(s, k + 1, ms, keys) == Spawn(moved, ms[c], c);
    } else {
      assert p == s.(throwers := p.throwers, throwHandled := p.throwHandled);
      assert !(!p1.ballInFlight && k == c);
      assert ThrowerTick(p, k, ms[k], keys) == p1.(throwHandled := true);
      assert LoopedThrowers(s, k + 1, ms, keys) == moved;
    }
  }

  /** One iteration for a living human thrower. */
  lemma HumanThrowerTick(s: View, k: nat, ms: seq<Thrower>, keys: set<string>)
    requires k < |s.throwers| && Bound(s.throwers) && Bound(ms) && MovesOf(ms, s.throwers)
    requires HumanAlive(s.throwers[k])
    ensures ThrowerTick(LoopedThrowers(s, k, ms, keys), k, ms[k], keys) == LoopedThrowers(s, k + 1, ms, keys)
  {
    if s.throwers[k].control.value.throwKey !in keys {
      ReleasedThrowerTick(s, k, ms, keys);
    } else if HandledAfter(s.throwers[..k], keys, s.throwHandled) {
      HeldThrowerTick(s, k, ms, keys);
    } else {
      PressedThrowerTick(s, k, ms, keys);
    }
  }

  /** Before the first iteration nothing has happened. */
  lemma LoopedThrowersStart(s: View, ms: seq<Thrower>, keys: set<string>)
    requires |s.throwers| == |ms| && Bound(s.throwers) && Bound(ms)
    ensures LoopedThrowers(s, 0, ms, keys) == s
  {
    assert s.throwers[..0] == [];
    assert s.throwers[0..] == s.throwers;
  }

  /** One more iteration of the loop is one more tick. */
  lemma ThrowersLoopUnfold(s: View, i: nat, ms: seq<Thrower>, keys: set<string>)
    requires 0 < i <= |s.throwers| == |ms| && Bound(s.throwers) && Bound(ms)
    ensures ThrowersLoop(s, i, ms, keys) == ThrowerTick(ThrowersLoop(s, i - 1, ms, keys), i - 1, ms[i - 1], keys)
  {
  }

  /** After i iterations the loop has done what LoopedThrowers says. */
  lemma {:induction false} ThrowersLoopClosedForm(s: View, i: nat, ms: seq<Thrower>, keys: set<string>)
    requires i <= |s.throwers| && Bound(s.throwers) && Bound(ms) && MovesOf(ms, s.throwers)
    ensures ThrowersLoop(s, i, ms, keys) == LoopedThrowers(s, i, ms, keys)
  {
    if i == 0 {
      LoopedThrowersStart(s, ms, keys);
    } else {
      var k := i - 1;
      assert k + 1 == i;
      ThrowersLoopUnfold(s, i, ms, keys);
      ThrowersLoopClosedForm(s, k, ms, keys);
      if HumanAlive(s.throwers[k]) {
        HumanThrowerTick(s, k, ms, keys);
      } else {
        IdleThrowerTick(s, k, ms, keys);
      }
    }
  }

  /** Iteration i of the loop moves the thrower it finds at i, which is
      still the one the loop started from. */
  lemma ThrowersLoopStep(s: View, i: nat, step: real, keys: set<string>, W: real, H: real)
    requires i < |s.throwers| && Bound(s.throwers)
    ensures var ms := MovedThrowers(s.throwers, keys, step, W, H);
      var p := ThrowersLoop(s, i, ms, keys);
      && p.throwers[i] == s.throwers[i]
      && ThrowersLoop(s, i + 1, ms, keys) == ThrowerTick(p, i, MovedThrower(p.throwers[i], keys, step, W, H), keys)
  {
    var ms := MovedThrowers(s.throwers, keys, step, W, H);
    ThrowersLoopClosedForm(s, i, ms, keys);
    SpliceStep(ms, s.throwers, i);
  }

  /** The whole throwers loop of updateHumans. */
  function ThrowersPhase(s: View, step: real, keys: set<string>, W: real, H: real): (r: View)
    requires Consistent(s)
    ensures Consistent(r)
    ensures r.throwers == MovedThrowers(s.throwers, keys, step, W, H)
    ensures r.throwHandled == HandledAfter(s.throwers, keys, s.throwHandled)
    ensures ThrowFires(s, keys) ==>
      && r.ballInFlight && r.ballIdCounter == s.ballIdCounter + 1
      && r.activeBall.value.ownerIndex == s.currentThrowerIndex
      && r.activeBall.value.x == r.throwers[s.currentThrowerIndex].x
    ensures !ThrowFires(s, keys) ==>
      r.activeBall == s.activeBall && r.ballIdCounter == s.ballIdCounter && r.ballInFlight == s.ballInFlight
    ensures r == s.(throwers := r.throwers, throwHandled := r.throwHandled, activeBall := r.activeBall,
                    ballIdCounter := r.ballIdCounter, ballInFlight := r.ballInFlight)
  {
    var n := |s.throwers|;
    var ms := MovedThrowers(s.throwers, keys, step, W, H);
    ThrowersLoopClosedForm(s, n, ms, keys);
    assert ms[..n] + s.throwers[n..] == ms;
    assert s.throwers[..n] == s.throwers;
    ThrowersLoop(s, n, ms, keys)
  }

  /** The thrower phase is the whole fold of the loop over the moved line-up. */
  lemma ThrowersPhaseIsLoop(s: View, step: real, keys: set<string>, W: real, H: real)
    requires Consistent(s)
    ensures ThrowersPhase(s, step, keys, W, H) == ThrowersLoop(s, |s.throwers|, MovedThrowers(s.throwers, keys, step, W, H), keys)
  {
  }

  /** updateHumans: move the human throwers (with throw-key edge detection)
      and the human dodgers, `dt` milliseconds at 300 px per second. */
  function HumansStep(s: View, dt: real, keys: set<string>, W: real, H: real): (r: View)
    requires Consistent(s)
    ensures Consistent(r)
    ensures r.playerScore == s.playerScore && r.currentThrowerIndex == s.currentThrowerIndex
    ensures r.gameRunning == s.gameRunning && r.mode == s.mode && r.difficulty == s.difficulty
    ensures |r.throwers| == |s.throwers| && |r.dodgers| == |s.dodgers|
    ensures forall i :: 0 <= i < |s.dodgers| ==>
      r.dodgers[i].alive == s.dodgers[i].alive && r.dodgers[i].isHuman == s.dodgers[i].isHuman
    ensures forall i :: 0 <= i < |s.throwers| ==>
      r.throwers[i].alive == s.throwers[i].alive && r.throwers[i].isHuman == s.throwers[i].isHuman
    ensures r.throwHandled == HandledAfter(s.throwers, keys, s.throwHandled)
    ensures ThrowFires(s, keys) ==>
      r.ballInFlight && r.ballIdCounter == s.ballIdCounter + 1
      && r.activeBall.value.ownerIndex == s.currentThrowerIndex
    ensures !ThrowFires(s, keys) ==> r.activeBall == s.activeBall && r.ballIdCounter == s.ballIdCounter
    ensures r.throwers == MovedThrowers(s.throwers, keys, 300.0 * (dt / 1000.0), W, H)
    ensures r.dodgers == MovedDodgers(s.dodgers, keys, 300.0 * (dt / 1000.0), W, H)
  {
    var step := 300.0 * (dt / 1000.0);
    var s1 := ThrowersPhase(s, step, keys, W, H);
    var ds := MovedDodgers(s.dodgers, keys, step, W, H);
    assert forall i :: 0 <= i < |ds| ==> ds[i].alive == s.dodgers[i].alive;
    assert AnyAlive(s.dodgers) ==> AnyAlive(ds);
    s1.(dodgers := ds)
  }

  lemma {:induction false} HandledAfterAppend(a: seq<Thrower>, b: seq<Thrower>, keys: set<string>, h: bool)
    requires Bound(a) && Bound(b)
    ensures Bound(a + b)
    ensures HandledAfter(a + b, keys, h) == HandledAfter(b, keys, HandledAfter(a, keys, h))
    decreases |b|
  {
    if b != [] {
      var b' := b[..|b| - 1];
      assert (a + b)[..|a + b| - 1] == a + b';
      HandledAfterAppend(a, b', keys, h);
    } else {
      assert a + b == a;
    }
  }

  lemma {:induction false} NoHumansKeepFlag(ts: seq<Thrower>, keys: set<string>, h: bool)
    requires Bound(ts) && forall j :: 0 <= j < |ts| ==> !HumanAlive(ts[j])
    ensures HandledAfter(ts, keys, h) == h
  {
    if ts != [] {
      NoHumansKeepFlag(ts[..|ts| - 1], keys, h);
    }
  }

  /** Edge detection with one human thrower: after a tick in which its
      throw key is down, the flag is set, and a following tick with the key
      still held finds the flag set when it reaches that thrower, so
      holding the key throws only once. */
  lemma HeldThrowKeyFiresOnce(ts: seq<Thrower>, keys: set<string>, h: bool, c: nat)
    requires Bound(ts) && c < |ts| && HumanAlive(ts[c]) && ts[c].control.value.throwKey in keys
    requires forall j :: 0 <= j < |ts| && j != c ==> !HumanAlive(ts[j])
    ensures HandledAfter(ts, keys, h)
    ensures HandledAfter(ts[..c], keys, HandledAfter(ts, keys, h))
  {
    assert ts == ts[..c + 1] + ts[c + 1..];
    HandledAfterAppend(ts[..c + 1], ts[c + 1..], keys, h);
    assert ts[..c + 1][..c] == ts[..c];
    NoHumansKeepFlag(ts[c + 1..], keys, true);
    NoHumansKeepFlag(ts[..c], keys, true);
  }

  /** The flag is shared: with two living human throwers, the second one's
      released key clears the flag the first one's held key set, so the
      first thrower's held key is not treated as already handled. */
  lemma SharedFlagIsClearedByOtherThrower(ts: seq<Thrower>, keys: set<string>, h: bool)
    requires Bound(ts) && |ts| == 2 && HumanAlive(ts[0]) && HumanAlive(ts[1])
    requires ts[0].control.value.throwKey in keys && ts[1].control.value.throwKey !in keys
    ensures !HandledAfter(ts, keys, h)
    ensures !HandledAfter(ts[..0], keys, HandledAfter(ts, keys, h))
  {
  }

  // ---------------------------------------------------------------------
  // Frame, interval guard, start and exit
  // ---------------------------------------------------------------------

  /** One animation frame: nothing when the game is not running; otherwise
      humans, then AI dodgers, then the ball. */
  function Tick(s: View, dt: real, now: int, keys: set<string>, rolls: seq<Roll>, W: real, H: real): (r: View)
    requires Consistent(s) && |rolls| == |s.dodgers|
    ensures Consistent(r)
    ensures !s.gameRunning ==> r == s
    ensures s.playerScore <= r.playerScore <= s.playerScore + 1
    ensures s.ballIdCounter <= r.ballIdCounter <= s.ballIdCounter + 1
    ensures |r.dodgers| == |s.dodgers|
    ensures forall j :: 0 <= j < |s.dodgers| && !s.dodgers[j].alive ==> !r.dodgers[j].alive
    ensures AliveCount(r.dodgers) >= AliveCount(s.dodgers) - 1
    ensures r.gameRunning <==> s.gameRunning && AnyAlive(r.dodgers)
  {
    if !s.gameRunning then s
    else
      var s1 := HumansStep(s, dt, keys, W, H);
      var s2 := DodgersStep(s1, dt, now, rolls, W);
      AliveCountRespectsAliveFlags(s.dodgers, s2.dodgers);
      BallStep(s2, dt, H)
  }

  /** The scoreboard count depends only on the alive flags. */
  lemma {:induction false} AliveCountRespectsAliveFlags(a: seq<Dodger>, b: seq<Dodger>)
    requires |a| == |b| && forall j :: 0 <= j < |a| ==> a[j].alive == b[j].alive
    ensures AliveCount(a) == AliveCount(b)
  {
    if a != [] {
      AliveCountRespectsAliveFlags(a[..|a| - 1], b[..|b| - 1]);
    }
  }

  /** A line-up in which everyone is alive counts every dodger. */
  lemma {:induction false} AllAliveCount(ds: seq<Dodger>)
    requires forall j :: 0 <= j < |ds| ==> ds[j].alive
    ensures AliveCount(ds) == |ds|
  {
    if ds != [] {
      AllAliveCount(ds[..|ds| - 1]);
    }
  }

  /** The 700 ms interval: while the game runs, an AI current thrower with
      no ball in flight throws. */
  function ObserveTurn(s: View): (r: View)
    requires Consistent(s)
    ensures Consistent(r)
    ensures r != s <==>
      s.gameRunning && s.throwers != [] && !s.throwers[s.currentThrowerIndex].isHuman && !s.ballInFlight
    ensures r != s ==> r.activeBall.Some? && r.activeBall.value.ownerIndex == s.currentThrowerIndex
    ensures r != s ==> r == Spawn(s, s.throwers[s.currentThrowerIndex], s.currentThrowerIndex)
  {
    var c := s.currentThrowerIndex;
    if s.gameRunning && c < |s.throwers| && !s.throwers[c].isHuman && !s.ballInFlight
    then AiThrow(s, s.throwers[c], c)
    else s
  }

  /** buildTeams: fresh line-ups for the current mode, the tier copied onto
      every dodger, and the first thrower's turn. The ball, the score and
      the running flag are left as they were. */
  function BuildTeams(s: View, difficulty: Difficulty, humanThrowers: int, humanDodgers: int, W: real, H: real): (r: View)
    requires Consistent(s)
    requires s.mode == ThrowerMode ==> humanThrowers >= 1
    ensures Consistent(r)
    ensures |r.throwers| == 2 && |r.dodgers| == 4 && r.currentThrowerIndex == 0
    ensures AliveCount(r.dodgers) == 4
    ensures r.playerScore == s.playerScore && r.activeBall == s.activeBall && r.gameRunning == s.gameRunning
    ensures r == s.(difficulty := difficulty,
                    throwers := TeamThrowers(s.mode, humanThrowers, W),
                    dodgers := TeamDodgers(s.mode, humanDodgers, difficulty, W, H),
                    currentThrowerIndex := 0)
  {
    TeamThrowersShape(s.mode, humanThrowers, W);
    TeamDodgersShape(s.mode, humanDodgers, difficulty, W, H);
    var ds := TeamDodgers(s.mode, humanDodgers, difficulty, W, H);
    AllAliveCount(ds);
    s.(difficulty := difficulty,
       throwers := TeamThrowers(s.mode, humanThrowers, W),
       dodgers := ds,
       currentThrowerIndex := 0)
  }

  /** The characters JavaScript's `trim()` removes: the white space
      characters (tab, vertical tab, form feed, the byte order mark and
      every space separator of Unicode) and the line terminators. */
  predicate IsSpace(c: char)
  {
    || c in {'\t', '\U{000B}', '\U{000C}', '\U{FEFF}'}
    || c in {' ', '\U{00A0}', '\U{1680}', '\U{202F}', '\U{205F}', '\U{3000}'}
    || '\U{2000}' <= c <= '\U{200A}'
    || c in {'\n', '\r', '\U{2028}', '\U{2029}'}
  }

  /** `!name.trim()`: the name is empty once trimmed. */
  predicate Blank(name: string)
  {
    forall i :: 0 <= i < |name| ==> IsSpace(name[i])
  }

  /** The start button: a blank name changes nothing; otherwise mode and
      tier are taken, the teams are built and the game runs. */
  function Start(s: View, name: string, mode: Mode, difficulty: Difficulty, humanThrowers: int, humanDodgers: int, W: real, H: real): (r: View)
    requires Consistent(s)
    requires mode == ThrowerMode ==> humanThrowers >= 1
    ensures Consistent(r)
    ensures Blank(name) ==> r == s
    ensures !Blank(name) ==>
      && r.gameRunning && r.mode == mode && r.difficulty == difficulty
      && r.currentThrowerIndex == 0 && AliveCount(r.dodgers) == 4 && r.playerScore == s.playerScore
    ensures !Blank(name) ==>
      r == s.(mode := mode, difficulty := difficulty,
              throwers := TeamThrowers(mode, humanThrowers, W),
              dodgers := TeamDodgers(mode, humanDodgers, difficulty, W, H),
              currentThrowerIndex := 0, gameRunning := true)
  {
    if Blank(name) then s
    else
      var built := BuildTeams(s.(mode := mode, difficulty := difficulty), difficulty, humanThrowers, humanDodgers, W, H);
      AliveCountZero(built.dodgers);
      built.(gameRunning := true)
  }

  /** The exit button: stop, drop the ball and reset the score. */
  function Exit(s: View): (r: View)
    requires Consistent(s)
    ensures Consistent(r)
    ensures !r.gameRunning && !r.ballInFlight && r.activeBall.None? && r.playerScore == 0
    ensures r.throwers == s.throwers && r.dodgers == s.dodgers && r.currentThrowerIndex == s.currentThrowerIndex
    ensures r.ballIdCounter == s.ballIdCounter && r.mode == s.mode && r.difficulty == s.difficulty && r.throwHandled == s.throwHandled
    ensures r == s.(gameRunning := false, activeBall := None, ballInFlight := false, playerScore := 0)
  {
    s.(gameRunning := false, activeBall := None, ballInFlight := false, playerScore := 0)
  }

  // ---------------------------------------------------------------------
  // The deferred AI throw
  // ---------------------------------------------------------------------

  /** The callback resolveBall schedules, as written: it evaluates
      `currentThrowerIndex` when the timer fires, not when it was set. */
  function ScheduledCallbackAsWritten(s: View, next: Thrower): (r: View)
    requires Consistent(s) && s.throwers != []
    ensures Consistent(r)
    ensures !s.ballInFlight ==> r.ballInFlight && r.activeBall.value.ownerIndex == s.currentThrowerIndex
  {
    AiThrow(s, next, s.currentThrowerIndex)
  }

  /** As written, the turn guard of the deferred throw always passes: once
      the turn has moved on to a human thrower while the AI's timer was
      pending, the stale timer still throws, from the AI's position, a ball
      owned by the human, and its hit is credited to the human's score. */
  lemma StaleCallbackThrowsOnHumanTurn(s: View, next: Thrower)
    requires Consistent(s) && s.throwers != [] && !s.ballInFlight
    requires s.throwers[s.currentThrowerIndex].isHuman && !next.isHuman
    ensures var r := ScheduledCallbackAsWritten(s, next);
      && r.activeBall.Some?
      && r.activeBall.value.ownerIndex == s.currentThrowerIndex
      && r.activeBall.value.x == next.x
      && Resolve(r, true).playerScore == s.playerScore + 1
  {
  }

  /** With the index captured when the timer is set (the value
      ScheduledThrow returns), a stale timer whose turn has passed throws
      nothing, and a throw it does make is owned by the AI thrower it was
      scheduled for, so a hit never changes the human score. */
  lemma CapturedCallbackRespectsTurn(s: View, next: Thrower, idx: nat, hit: bool)
    requires Consistent(s) && s.throwers != []
    requires idx < |s.throwers| && !s.throwers[idx].isHuman
    ensures idx != s.currentThrowerIndex ==> AiThrow(s, next, idx) == s
    ensures var r := AiThrow(s, next, idx);
      r != s ==> r.activeBall.value.ownerIndex == idx && Resolve(r, hit).playerScore == s.playerScore
  {
  }
}
