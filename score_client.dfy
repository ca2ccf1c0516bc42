/** The score report the client sends from endGame in public/game.js, and
    what the server makes of it. */
module ScoreClient {
  import opened Wrappers
  import opened Tiers
  import opened GameRules
  import opened Server

  /** The role the client reports: 'thrower' in thrower mode, otherwise 'dodger'. */
  function RoleFor(mode: Mode): (r: Role)
    ensures RoleName(r) == if mode == ThrowerMode then "thrower" else "dodger"
  {
    if mode == ThrowerMode then ThrowerRole else DodgerRole
  }

  /** The body endGame posts: player id, role from the mode, difficulty
      name and score; no `result`. */
  function EndGameRequest(playerId: int, mode: Mode, difficulty: Difficulty, score: int): ScoreRequest
  {
    ScoreRequest(Some(playerId), Some(if mode == ThrowerMode then "thrower" else "dodger"),
                 Some(DifficultyName(difficulty)), Some(score), None)
  }

  /** A report from a player the server knows is accepted, for the row of
      that player, role and tier, and adds neither a win nor a loss. */
  lemma EndGameRequestAccepted(players: map<int, string>, playerId: int, mode: Mode, difficulty: Difficulty, score: int)
    requires playerId != 0 && playerId in players
    ensures ValidateScore(EndGameRequest(playerId, mode, difficulty, score), players)
      == Ok(Submission(Key(playerId, RoleFor(mode), difficulty), score, 0, 0))
  {
    var req := EndGameRequest(playerId, mode, difficulty, score);
    var r := ValidateScore(req, players);
    RoleNameRoundTrip(r.value.key.role, RoleName(RoleFor(mode)));
    DifficultyNameRoundTrip(r.value.key.difficulty, DifficultyName(difficulty));
  }

  /** A report whose player the server does not know is refused and so
      changes no row. */
  lemma EndGameRequestUnknownPlayer(players: map<int, string>, playerId: int, mode: Mode, difficulty: Difficulty, score: int)
    requires playerId != 0 && playerId !in players
    ensures ValidateScore(EndGameRequest(playerId, mode, difficulty, score), players) == Err(PlayerNotFound)
  {
  }

  /** Rows built only from client reports never record a win or a loss. */
  lemma {:induction false} ClientReportsRecordNoResults(subs: seq<Submission>, k: Key)
    requires forall i :: 0 <= i < |subs| ==> subs[i].wins == 0 && subs[i].losses == 0
    ensures k in Replay(subs) ==> Replay(subs)[k].wins == 0 && Replay(subs)[k].losses == 0
  {
    ReplayIsTally(subs, k);
    NoResultsTally(subs, k);
  }

  lemma {:induction false} NoResultsTally(subs: seq<Submission>, k: Key)
    requires forall i :: 0 <= i < |subs| ==> subs[i].wins == 0 && subs[i].losses == 0
    ensures Tally(subs, k).wins == 0 && Tally(subs, k).losses == 0
  {
    if subs != [] {
      NoResultsTally(subs[..|subs| - 1], k);
    }
  }
}
