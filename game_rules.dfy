/** The pure part of the turn-based ball game (public/game.js): the
    participants and the ball as values, the difficulty table, the factories
    and the team line-ups, and the per-entity rules that the simulation loop
    applies in place (movement, the AI dodge rule, collision, scoring credit
    and turn rotation).

    Coordinates are reals in screen pixels, y growing downwards; `W` and `H`
    are the canvas size. */
module GameRules {
  import opened Wrappers
  import opened Tiers

  // ---------------------------------------------------------------------
  // Difficulty table
  // ---------------------------------------------------------------------

  /** One row of DIFF: reaction latency in milliseconds, probability that a
      reaction is a correct dodge, and movement speed multiplier. */
  datatype Tuning = Tuning(react: int, success: real, speed: real)

  function Diff(d: Difficulty): (t: Tuning)
    ensures t.react > 0 && 0.0 < t.success < 1.0 && t.speed > 0.0
  {
    match d
    case Easy => Tuning(900, 0.45, 0.8)
    case Medium => Tuning(500, 0.7, 1.0)
    case Hard => Tuning(250, 0.9, 1.25)
  }

  /** Harder tiers react sooner, dodge more reliably and move faster. */
  lemma HarderTiersAreSharper()
    ensures Diff(Easy).react > Diff(Medium).react > Diff(Hard).react
    ensures Diff(Easy).success < Diff(Medium).success < Diff(Hard).success
    ensures Diff(Easy).speed < Diff(Medium).speed < Diff(Hard).speed
  {
  }

  // ---------------------------------------------------------------------
  // Participants, controls and the ball
  // ---------------------------------------------------------------------

  /** Key codes (KeyboardEvent.code) of one movement binding. */
  datatype MoveKeys = MoveKeys(up: string, down: string, left: string, right: string)

  /** A thrower's binding: movement plus a throw key. */
  datatype ThrowerKeys = ThrowerKeys(move: MoveKeys, throwKey: string)

  const Thrower1Keys := ThrowerKeys(MoveKeys("KeyW", "KeyS", "KeyA", "KeyD"), "Space")
  const Thrower2Keys := ThrowerKeys(MoveKeys("ArrowUp", "ArrowDown", "ArrowLeft", "ArrowRight"), "Numpad5")
  const DodgerKeys: seq<MoveKeys> := [
    MoveKeys("KeyW", "KeyS", "KeyA", "KeyD"),
    MoveKeys("KeyI", "KeyK", "KeyJ", "KeyL"),
    MoveKeys("ArrowUp", "ArrowDown", "ArrowLeft", "ArrowRight"),
    MoveKeys("Numpad8", "Numpad5", "Numpad4", "Numpad6")
  ]

  /** Which side the local players control. */
  datatype Mode = ThrowerMode | DodgerMode

  /** A thrower; AI throwers have no key binding (`control` is undefined). */
  datatype Thrower = Thrower(
    name: string, x: real, y: real, isHuman: bool,
    control: Option<ThrowerKeys>, alive: bool, speedMultiplier: real)

  /** A dodger. `tuning` holds the reactMs/successProb/speed copied in by
      the team builder; it is undefined (None) straight out of a factory. */
  datatype Dodger = Dodger(
    name: string, x: real, y: real, isHuman: bool,
    control: Option<MoveKeys>, alive: bool, speedMultiplier: real,
    lastReact: int, tuning: Option<Tuning>)

  /** The single ball: its id, position, vertical direction and the index
      of the thrower that threw it. */
  datatype Ball = Ball(id: int, x: real, y: real, dir: int, ownerIndex: nat)

  predicate HumanAlive(t: Thrower)
  {
    t.isHuman && t.alive
  }

  // ---------------------------------------------------------------------
  // Factories
  // ---------------------------------------------------------------------

  function CreateHumanThrower(name: string, keys: ThrowerKeys, W: real): Thrower
  {
    Thrower(name, W * 0.5, 60.0, true, Some(keys), true, 1.0)
  }

  function CreateAIThrower(name: string, W: real): Thrower
  {
    Thrower(name, W * 0.5, 60.0, false, None, true, 1.0)
  }

  function CreateHumanDodger(name: string, keys: MoveKeys, startX: real, H: real): Dodger
  {
    Dodger(name, startX, H * 0.5, true, Some(keys), true, 1.0, 0, None)
  }

  function CreateAIDodger(name: string, startX: real, H: real): Dodger
  {
    Dodger(name, startX, H * 0.5, false, None, true, 1.0, 0, None)
  }

  /** Every participant a factory makes is alive at unit speed; a human one
      carries the binding it was given and an AI one none; a dodger starts
      on the half-court line with no reaction yet and no tuning. */
  lemma FactoriesMakeFreshParticipants(name: string, tk: ThrowerKeys, mk: MoveKeys, sx: real, W: real, H: real)
    ensures var t := CreateHumanThrower(name, tk, W);
      t.alive && t.isHuman && t.control == Some(tk) && t.speedMultiplier == 1.0 && t.x == W / 2.0 && t.y == 60.0
    ensures var t := CreateAIThrower(name, W);
      t.alive && !t.isHuman && t.control.None? && t.speedMultiplier == 1.0 && t.x == W / 2.0 && t.y == 60.0
    ensures var d := CreateHumanDodger(name, mk, sx, H);
      d.alive && d.isHuman && d.control == Some(mk) && d.speedMultiplier == 1.0 && d.x == sx && d.y == H / 2.0 && d.lastReact == 0 && d.tuning.None?
    ensures var d := CreateAIDodger(name, sx, H);
      d.alive && !d.isHuman && d.control.None? && d.speedMultiplier == 1.0 && d.x == sx && d.y == H / 2.0 && d.lastReact == 0 && d.tuning.None?
  {
  }

  // ---------------------------------------------------------------------
  // Team line-ups
  // ---------------------------------------------------------------------

  function DigitChar(n: nat): char
    requires n <= 9
  {
    ('0' as int + n) as char
  }

  /** The throwers in the order they are pushed, before they are placed. */
  function ThrowerRoster(mode: Mode, humanThrowers: int, W: real): seq<Thrower>
  {
    match mode
    case ThrowerMode =>
      (if humanThrowers >= 1 then [CreateHumanThrower("You", Thrower1Keys, W)] else [])
      + (if humanThrowers >= 2 then [CreateHumanThrower("You 2", Thrower2Keys, W)] else [])
      + (if humanThrowers == 1 then [CreateAIThrower("AI-Thrower", W)] else [])
    case DodgerMode =>
      [CreateAIThrower("AI-T1", W), CreateAIThrower("AI-T2", W)]
  }

  /** Thrower i stands on the top line, at 40% + 20%·i of the width. */
  function PlaceThrower(t: Thrower, i: nat, W: real): Thrower
  {
    t.(x := W * (0.4 + 0.2 * (i as real)), y := 60.0)
  }

  function TeamThrowers(mode: Mode, humanThrowers: int, W: real): seq<Thrower>
  {
    var roster := ThrowerRoster(mode, humanThrowers, W);
    seq(|roster|, i requires 0 <= i < |roster| => PlaceThrower(roster[i], i, W))
  }

  /** Dodger slot i (0..3) starts at 25% + 15%·i of the width. */
  function SlotX(i: nat, W: real): real
  {
    W * (0.25 + (i as real) * 0.15)
  }

  /** The dodger created for slot i, before tuning: in dodger mode the
      first `humanDodgers` slots are human, every other slot is AI. */
  function RecruitDodger(mode: Mode, humanDodgers: int, i: nat, W: real, H: real): Dodger
    requires i < 4
  {
    if mode == DodgerMode && i < humanDodgers then
      CreateHumanDodger("You" + [DigitChar(i + 1)], DodgerKeys[i], SlotX(i, W), H)
    else
      CreateAIDodger("AI-Dodger-" + [DigitChar(i + 1)], SlotX(i, W), H)
  }

  /** Copy one DIFF row onto a dodger. */
  function Tune(d: Dodger, t: Tuning): Dodger
  {
    d.(tuning := Some(t))
  }

  function TeamDodgers(mode: Mode, humanDodgers: int, difficulty: Difficulty, W: real, H: real): seq<Dodger>
  {
    seq(4, i requires 0 <= i < 4 => Tune(RecruitDodger(mode, humanDodgers, i, W, H), Diff(difficulty)))
  }

  /** Thrower mode with one human gives [human, AI]; with two or more humans
      [human, human]; dodger mode gives two AI throwers. Every thrower is
      alive on the top line, at 40% and 60% of the width, and every human
      has a key binding. */
  lemma TeamThrowersShape(mode: Mode, humanThrowers: int, W: real)
    requires mode == ThrowerMode ==> humanThrowers >= 1
    ensures var ts := TeamThrowers(mode, humanThrowers, W);
      && |ts| == 2
      && (forall i :: 0 <= i < 2 ==> ts[i].alive && ts[i].y == 60.0 && (ts[i].isHuman ==> ts[i].control.Some?))
      && ts[0].x == W * 0.4 && ts[1].x == W * 0.6
      && (ts[0].isHuman <==> mode == ThrowerMode)
      && (ts[1].isHuman <==> mode == ThrowerMode && humanThrowers >= 2)
  {
  }

  /** Always four dodgers, all alive; a dodger is human exactly when the
      mode is dodger mode and its slot is below the human count; every
      dodger carries the DIFF row of the chosen tier. */
  lemma TeamDodgersShape(mode: Mode, humanDodgers: int, difficulty: Difficulty, W: real, H: real)
    ensures var ds := TeamDodgers(mode, humanDodgers, difficulty, W, H);
      && |ds| == 4
      && forall i :: 0 <= i < 4 ==>
        && ds[i].alive
        && ds[i].tuning == Some(Diff(difficulty))
        && (ds[i].isHuman <==> mode == DodgerMode && i < humanDodgers)
        && (ds[i].isHuman ==> ds[i].control == Some(DodgerKeys[i]))
        && ds[i].x == SlotX(i, W)
  {
  }

  // ---------------------------------------------------------------------
  // Movement
  // ---------------------------------------------------------------------

  /** `Math.max(lo, Math.min(hi, v))`. */
  function Clamp(v: real, lo: real, hi: real): (r: real)
    ensures lo <= hi ==> lo <= r <= hi
    ensures lo <= v <= hi ==> r == v
    ensures v < lo <= hi ==> r == lo
    ensures lo <= hi < v ==> r == hi
    ensures r == v || r == lo || r == hi
  {
    var m := if hi < v then hi else v;
    if lo > m then lo else m
  }

  /** The net displacement along one axis when the key towards smaller
      coordinates (`back`) and the one towards larger ones (`forth`) are
      read with step d: opposite keys cancel. */
  function Offset(back: bool, forth: bool, d: real): (r: real)
    ensures back == forth ==> r == 0.0
    ensures forth && !back ==> r == d
    ensures back && !forth ==> r == -d
  {
    if back == forth then 0.0 else if forth then d else -d
  }

  /** Reading the two keys of an axis one after the other, as the source
      does, moves by the net displacement. */
  lemma KeyStep(v: real, back: bool, forth: bool, d: real)
    ensures (var v1 := if back then v - d else v; if forth then v1 + d else v1) == v + Offset(back, forth, d)
  {
  }

  /** One tick of a human thrower: each held direction key moves it by
      `step` times its speed multiplier, then it is clamped to the court
      [30, W-30] × [30, H-30]. */
  function MoveThrower(t: Thrower, keys: set<string>, step: real, W: real, H: real): (r: Thrower)
    requires t.control.Some?
    ensures r == t.(x := r.x, y := r.y)
    ensures W >= 60.0 ==> 30.0 <= r.x <= W - 30.0
    ensures H >= 60.0 ==> 30.0 <= r.y <= H - 30.0
    ensures var k := t.control.value.move;
      && r.x == Clamp(t.x + Offset(k.left in keys, k.right in keys, step * t.speedMultiplier), 30.0, W - 30.0)
      && r.y == Clamp(t.y + Offset(k.up in keys, k.down in keys, step * t.speedMultiplier), 30.0, H - 30.0)
  {
    var k := t.control.value.move;
    var d := step * t.speedMultiplier;
    KeyStep(t.x, k.left in keys, k.right in keys, d);
    KeyStep(t.y, k.up in keys, k.down in keys, d);
    var x1 := if k.left in keys then t.x - d else t.x;
    var x2 := if k.right in keys then x1 + d else x1;
    var y1 := if k.up in keys then t.y - d else t.y;
    var y2 := if k.down in keys then y1 + d else y1;
    t.(x := Clamp(x2, 30.0, W - 30.0), y := Clamp(y2, 30.0, H - 30.0))
  }

  /** One tick of a human dodger: the same key rule at the base step (its
      speed multiplier is not applied), clamped to [30, W-30] across and to
      the middle band [0.4·H, 0.6·H] down. */
  function MoveDodger(d: Dodger, keys: set<string>, step: real, W: real, H: real): (r: Dodger)
    requires d.control.Some?
    ensures r == d.(x := r.x, y := r.y)
    ensures W >= 60.0 ==> 30.0 <= r.x <= W - 30.0
    ensures H >= 0.0 ==> H * 0.4 <= r.y <= H * 0.6
    ensures var k := d.control.value;
      && r.x == Clamp(d.x + Offset(k.left in keys, k.right in keys, step), 30.0, W - 30.0)
      && r.y == Clamp(d.y + Offset(k.up in keys, k.down in keys, step), H * 0.4, H * 0.6)
  {
    var k := d.control.value;
    var sp := step * 1.0;
    KeyStep(d.x, k.left in keys, k.right in keys, sp);
    KeyStep(d.y, k.up in keys, k.down in keys, sp);
    var x1 := if k.left in keys then d.x - sp else d.x;
    var x2 := if k.right in keys then x1 + sp else x1;
    var y1 := if k.up in keys then d.y - sp else d.y;
    var y2 := if k.down in keys then y1 + sp else y1;
    d.(x := Clamp(x2, 30.0, W - 30.0), y := Clamp(y2, H * 0.4, H * 0.6))
  }

  /** A participant inside the court that holds no direction key stays put. */
  lemma IdleHumansStayPut(t: Thrower, d: Dodger, keys: set<string>, step: real, W: real, H: real)
    requires t.control.Some? && d.control.Some?
    requires var k := t.control.value.move; k.left !in keys && k.right !in keys && k.up !in keys && k.down !in keys
    requires var k := d.control.value; k.left !in keys && k.right !in keys && k.up !in keys && k.down !in keys
    requires 30.0 <= t.x <= W - 30.0 && 30.0 <= t.y <= H - 30.0
    requires 30.0 <= d.x <= W - 30.0 && H * 0.4 <= d.y <= H * 0.6
    ensures MoveThrower(t, keys, step, W, H) == t
    ensures MoveDodger(d, keys, step, W, H) == d
  {
  }

  // ---------------------------------------------------------------------
  // AI dodger rule
  // ---------------------------------------------------------------------

  /** The `Math.random()` draws one AI dodger may use in one tick, in the
      order the rule consumes them: idle wander, success roll, whether a
      failed reaction moves, and which way. */
  datatype Roll = Roll(wander: real, success: real, stray: real, side: real)

  function Abs(v: real): real
  {
    if v < 0.0 then -v else v
  }

  /** One tick of one dodger under the AI rule, at wall-clock time `now`
      (ms), with the ball `ball` (None when no ball is active) and the speed
      multiplier of the current tier. */
  function AIDodgerStep(d: Dodger, ball: Option<Ball>, speed: real, W: real, dt: real, now: int, roll: Roll): (r: Dodger)
    requires d.isHuman || !d.alive || d.tuning.Some?
    ensures r == d.(x := r.x, lastReact := r.lastReact)
    ensures d.isHuman || !d.alive ==> r == d
    ensures ball.Some? && !d.isHuman && d.alive ==>
      (if now - d.lastReact < d.tuning.value.react then r == d else r.lastReact == now)
    ensures ball.None? ==> r.lastReact == d.lastReact
    ensures ball.None? && !d.isHuman && d.alive && W >= 60.0 ==> 30.0 <= r.x <= W - 30.0
  {
    if d.isHuman || !d.alive then d
    else if ball.None? then
      // idle wander: small random walk, clamped
      d.(x := Clamp(d.x + (roll.wander - 0.5) * 20.0 * (dt / 1000.0) * speed, 30.0, W - 30.0))
    else if now - d.lastReact < d.tuning.value.react then d
    else
      var reacted := d.(lastReact := now);
      if roll.success > d.tuning.value.success then
        // failed reaction: sometimes one unclamped lateral step
        if roll.stray > 0.6 then
          reacted.(x := d.x + (if roll.side > 0.5 then -1.0 else 1.0) * 30.0 * speed)
        else reacted
      else if Abs(ball.value.x - d.x) < 120.0 then
        var leftSpace := d.x - 30.0;
        var rightSpace := (W - 30.0) - d.x;
        var dir := if rightSpace > leftSpace then 1.0 else -1.0;
        reacted.(x := Clamp(d.x + dir * (80.0 * speed), 30.0, W - 30.0))
      else
        reacted.(x := d.x + (W / 2.0 - d.x) * 0.02 * speed)
  }

  /** A successful reaction to a ball less than 120 px away across moves the
      dodger 80·speed towards the side of the court with more room (the right
      exactly when the dodger stands left of the middle) and puts it back on
      the court, wherever an earlier stray step had left it. */
  lemma DodgeTowardsRoomierSide(d: Dodger, b: Ball, speed: real, W: real, dt: real, now: int, roll: Roll)
    requires !d.isHuman && d.alive && d.tuning.Some?
    requires now - d.lastReact >= d.tuning.value.react
    requires roll.success <= d.tuning.value.success
    requires Abs(b.x - d.x) < 120.0
    requires W > 60.0 && speed > 0.0
    ensures var r := AIDodgerStep(d, Some(b), speed, W, dt, now, roll);
      var dir := if d.x < W / 2.0 then 1.0 else -1.0;
      && r == d.(x := Clamp(d.x + dir * 80.0 * speed, 30.0, W - 30.0), lastReact := now)
      && 30.0 <= r.x <= W - 30.0
      && (d.x < W / 2.0 ==> d.x < r.x && (r.x == d.x + 80.0 * speed || r.x == W - 30.0 || r.x == 30.0))
      && (d.x >= W / 2.0 ==> r.x < d.x && (r.x == d.x - 80.0 * speed || r.x == 30.0 || r.x == W - 30.0))
  {
  }

  /** After reacting at time t, a dodger does nothing more while the ball is
      active until its reaction latency has elapsed. */
  lemma ReactsAtMostOncePerLatency(d: Dodger, b: Ball, speed: real, W: real, dt: real, t: int, t': int, roll: Roll, roll': Roll)
    requires !d.isHuman && d.alive && d.tuning.Some?
    requires AIDodgerStep(d, Some(b), speed, W, dt, t, roll).lastReact == t
    requires t <= t' < t + d.tuning.value.react
    ensures var r := AIDodgerStep(d, Some(b), speed, W, dt, t, roll);
      AIDodgerStep(r, Some(b), speed, W, dt, t', roll') == r
  {
  }

  /** The failed-reaction step is not clamped: a dodger standing on the
      right edge of an 800 px court can be pushed past it. */
  lemma FailedReactionLeavesCourt()
    ensures var d := Dodger("AI-Dodger-4", 770.0, 400.0, false, None, true, 1.0, 0, Some(Diff(Easy)));
      AIDodgerStep(d, Some(Ball(1, 770.0, 300.0, 1, 0)), Diff(Easy).speed, 800.0, 16.0, 1000, Roll(0.5, 0.9, 0.9, 0.0)).x > 800.0 - 30.0
  {
  }

  // ---------------------------------------------------------------------
  // Ball flight and collision
  // ---------------------------------------------------------------------

  /** The ball moves 400 px per second along its direction. */
  function Advance(b: Ball, dt: real): Ball
  {
    b.(y := b.y + 400.0 * (dt / 1000.0) * (b.dir as real))
  }

  function SqDist(ax: real, ay: real, bx: real, bY: real): real
  {
    (ax - bx) * (ax - bx) + (ay - bY) * (ay - bY)
  }

  const HitRadius: real := 26.0

  /** `Math.sqrt(dx*dx + dy*dy) < 26` for a living dodger, compared on
      squares (both sides are non-negative). */
  predicate Touches(b: Ball, d: Dodger)
  {
    d.alive && SqDist(b.x, b.y, d.x, d.y) < HitRadius * HitRadius
  }

  /** The ball has left the screen (more than 40 px past either edge). */
  predicate OutOfBounds(b: Ball, H: real)
  {
    b.y > H + 40.0 || b.y < -40.0
  }

  /** The first dodger at or after `from`, in list order, that the ball
      touches; dead dodgers never count. */
  function FirstHit(ds: seq<Dodger>, b: Ball, from: nat): (r: Option<nat>)
    requires from <= |ds|
    ensures r.Some? ==> from <= r.value < |ds| && Touches(b, ds[r.value])
    ensures r.Some? ==> forall j :: from <= j < r.value ==> !Touches(b, ds[j])
    ensures r.None? ==> forall j :: from <= j < |ds| ==> !Touches(b, ds[j])
    decreases |ds| - from
  {
    if from == |ds| then None
    else if Touches(b, ds[from]) then Some(from)
    else FirstHit(ds, b, from + 1)
  }

  /** Kill dodger i. */
  function Killed(ds: seq<Dodger>, i: nat): (r: seq<Dodger>)
    requires i < |ds|
  {
    ds[i := ds[i].(alive := false)]
  }

  // ---------------------------------------------------------------------
  // Living dodgers
  // ---------------------------------------------------------------------

  /** `dodgers.some(d => d.alive)`. */
  predicate AnyAlive(ds: seq<Dodger>)
  {
    exists i :: 0 <= i < |ds| && ds[i].alive
  }

  /** `dodgers.filter(d => d.alive).length`, shown on the scoreboard. */
  function AliveCount(ds: seq<Dodger>): (n: nat)
    ensures n <= |ds|
  {
    if ds == [] then 0
    else AliveCount(ds[..|ds| - 1]) + (if ds[|ds| - 1].alive then 1 else 0)
  }

  /** The scoreboard count is zero exactly when no dodger is alive. */
  lemma {:induction false} AliveCountZero(ds: seq<Dodger>)
    ensures AliveCount(ds) == 0 <==> !AnyAlive(ds)
  {
    if ds != [] {
      var front := ds[..|ds| - 1];
      AliveCountZero(front);
      if AnyAlive(front) {
        var i :| 0 <= i < |front| && front[i].alive;
        assert ds[i].alive;
      }
      if AnyAlive(ds) && !ds[|ds| - 1].alive {
        var i :| 0 <= i < |ds| && ds[i].alive;
        assert front[i].alive;
      }
    }
  }

  /** Killing a living dodger lowers the count by exactly one. */
  lemma {:induction false} KillLowersAliveCount(ds: seq<Dodger>, i: nat)
    requires i < |ds| && ds[i].alive
    ensures AliveCount(Killed(ds, i)) == AliveCount(ds) - 1
  {
    var k := Killed(ds, i);
    var n := |ds| - 1;
    if i == n {
      assert k[..n] == ds[..n];
    } else {
      assert k[..n] == Killed(ds[..n], i);
      KillLowersAliveCount(ds[..n], i);
    }
  }

  // ---------------------------------------------------------------------
  // Scoring and turns
  // ---------------------------------------------------------------------

  /** `throwers[ownerIndex]`, undefined when the index is out of range. */
  function OwnerOf(ts: seq<Thrower>, idx: nat): (r: Option<Thrower>)
    ensures r.Some? <==> idx < |ts|
    ensures r.Some? ==> r.value == ts[idx]
  {
    if idx < |ts| then Some(ts[idx]) else None
  }

  /** The score after a resolution: a hit by a human-owned ball is worth 1. */
  function Credit(score: int, hit: bool, owner: Option<Thrower>): (r: int)
    ensures r == score || r == score + 1
    ensures r == score + 1 <==> hit && owner.Some? && owner.value.isHuman
  {
    if hit && owner.Some? && owner.value.isHuman then score + 1 else score
  }

  /** A sequence of resolutions: whether each hit and who owned the ball. */
  datatype Outcome = Outcome(hit: bool, owner: Option<Thrower>)

  function CreditAll(score: int, outs: seq<Outcome>): int
  {
    if outs == [] then score
    else Credit(CreditAll(score, outs[..|outs| - 1]), outs[|outs| - 1].hit, outs[|outs| - 1].owner)
  }

  /** How many of the outcomes are hits by a human-owned ball. */
  function HumanHits(outs: seq<Outcome>): nat
  {
    if outs == [] then 0
    else
      var o := outs[|outs| - 1];
      HumanHits(outs[..|outs| - 1]) + (if o.hit && o.owner.Some? && o.owner.value.isHuman then 1 else 0)
  }

  /** Over any run of resolutions the score grows by exactly the number of
      human hits, so it never decreases. */
  lemma {:induction false} ScoreCountsHumanHits(score: int, outs: seq<Outcome>)
    ensures CreditAll(score, outs) == score + HumanHits(outs)
    ensures CreditAll(score, outs) >= score
  {
    if outs != [] {
      ScoreCountsHumanHits(score, outs[..|outs| - 1]);
    }
  }

  /** The turn after thrower `cur` of `n`: the next index, wrapping to 0
      after the last. */
  function NextTurn(cur: nat, n: nat): (r: nat)
    requires n > 0
    ensures r < n
  {
    if cur + 1 < n then cur + 1 else 0
  }

  /** For an index in range, NextTurn is `(currentThrowerIndex + 1) %
      throwers.length`. */
  lemma NextTurnIsMod(cur: nat, n: nat)
    requires cur < n
    ensures NextTurn(cur, n) == (cur + 1) % n
  {
    if cur + 1 < n {
      ModUnique(cur + 1, n, 0, cur + 1);
    } else {
      ModUnique(cur + 1, n, 1, 0);
    }
  }

  /** The turn index after k resolutions, starting from thrower 0. */
  function TurnAfter(k: nat, n: nat): (r: nat)
    requires n > 0
    ensures r < n
  {
    if k == 0 then 0 else NextTurn(TurnAfter(k - 1, n), n)
  }

  /** k·n is at least n for k >= 1 (multiplication is monotone). */
  lemma {:induction false} MulAtLeast(k: int, n: int)
    requires k >= 1 && n > 0
    ensures k * n >= n
    decreases k
  {
    if k > 1 {
      MulAtLeast(k - 1, n);
      assert k * n == (k - 1) * n + n;
    }
  }

  /** Euclidean division is unique: q·n + r with 0 <= r < n has remainder r. */
  lemma ModUnique(a: int, n: int, q: int, r: int)
    requires n > 0 && 0 <= r < n && a == q * n + r
    ensures a % n == r
  {
    var q', r' := a / n, a % n;
    assert a == q' * n + r';
    assert (q - q') * n == r' - r;
    if q - q' >= 1 {
      MulAtLeast(q - q', n);
    } else if q' - q >= 1 {
      assert (q' - q) * n == r - r';
      MulAtLeast(q' - q, n);
    }
  }

  lemma ModSucc(a: nat, n: nat)
    requires n > 0
    ensures (a % n + 1) % n == (a + 1) % n
  {
    var q, r := a / n, a % n;
    assert a == q * n + r;
    if r + 1 < n {
      ModUnique(a + 1, n, q, r + 1);
      ModUnique(r + 1, n, 0, r + 1);
    } else {
      assert a + 1 == (q + 1) * n + 0;
      ModUnique(a + 1, n, q + 1, 0);
      ModUnique(r + 1, n, 1, 0);
    }
  }

  /** After k resolutions with n throwers the turn index is k mod n. */
  lemma {:induction false} TurnAfterIsMod(k: nat, n: nat)
    requires n > 0
    ensures TurnAfter(k, n) == k % n
  {
    if k > 0 {
      var prev := TurnAfter(k - 1, n);
      TurnAfterIsMod(k - 1, n);
      NextTurnIsMod(prev, n);
      ModSucc(k - 1, n);
      calc {
        TurnAfter(k, n);
        NextTurn(prev, n);
        (prev + 1) % n;
        ((k - 1) % n + 1) % n;
        k % n;
      }
    }
  }
}
