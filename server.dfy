/** The score service of server.js: the `players` and `leaderboard_stats`
    tables as maps, the validation chain of POST /api/score, the upsert it
    issues, POST /api/start with createPlayer, and the query of
    getLeaderboard. */
module Server {
  import opened Wrappers
  import opened Tiers

  // ---------------------------------------------------------------------
  // Rows and keys
  // ---------------------------------------------------------------------

  /** The ENUM('dodger', 'thrower') column. */
  datatype Role = DodgerRole | ThrowerRole

  function RoleName(r: Role): string
  {
    match r
    case DodgerRole => "dodger"
    case ThrowerRole => "thrower"
  }

  /** The membership test `['dodger', 'thrower'].includes(s)`, returning the role it names. */
  function ParseRole(s: string): (r: Option<Role>)
    ensures r.Some? <==> s in {"dodger", "thrower"}
  {
    if s == "dodger" then Some(DodgerRole)
    else if s == "thrower" then Some(ThrowerRole)
    else None
  }

  /** Role names and parsing are inverse to each other. */
  lemma RoleNameRoundTrip(r: Role, s: string)
    ensures ParseRole(RoleName(r)) == Some(r)
    ensures ParseRole(s) == Some(r) <==> s == RoleName(r)
  {
  }

  /** The unique key (player_id, role, difficulty) of leaderboard_stats. */
  datatype Key = Key(playerId: int, role: Role, difficulty: Difficulty)

  /** The counters of one leaderboard_stats row. */
  datatype Stats = Stats(totalScore: int, gamesPlayed: int, wins: int, losses: int)

  /** A row of `players` as createPlayer reads it back. */
  datatype Player = Player(id: int, name: string)

  // ---------------------------------------------------------------------
  // POST /api/score: validation
  // ---------------------------------------------------------------------

  /** The body of POST /api/score; None is a field the client left out. */
  datatype ScoreRequest = ScoreRequest(
    playerId: Option<int>, role: Option<string>, difficulty: Option<string>,
    score: Option<int>, result: Option<string>)

  /** The four answers with status 400, in the order they are checked. */
  datatype Rejection = PlayerIdRequired | InvalidRole | InvalidDifficulty | PlayerNotFound

  /** A validated submission: the row it is for and what it adds. */
  datatype Submission = Submission(key: Key, score: int, wins: int, losses: int)

  /** `!playerId` is false: the id is present and not 0. */
  predicate HasPlayerId(req: ScoreRequest)
  {
    req.playerId.Some? && req.playerId.value != 0
  }

  /** The destructuring defaults: role 'dodger', difficulty 'easy', score 0. */
  function RoleOf(req: ScoreRequest): string
  {
    if req.role.Some? then req.role.value else "dodger"
  }

  function DifficultyOf(req: ScoreRequest): string
  {
    if req.difficulty.Some? then req.difficulty.value else "easy"
  }

  function ScoreOf(req: ScoreRequest): int
  {
    if req.score.Some? then req.score.value else 0
  }

  /** A submission adds one game, and at most one of a win and a loss. */
  predicate Proper(sub: Submission)
  {
    0 <= sub.wins <= 1 && 0 <= sub.losses <= 1 && sub.wins + sub.losses <= 1
  }

  /** The checks of POST /api/score, in order: player id, role, difficulty,
      existence of the player; then the win and loss increments from
      `result`. */
  function ValidateScore(req: ScoreRequest, players: map<int, string>): (r: Result<Submission, Rejection>)
    ensures r == Err(PlayerIdRequired) <==> !HasPlayerId(req)
    ensures r == Err(InvalidRole) <==> HasPlayerId(req) && RoleOf(req) !in {"dodger", "thrower"}
    ensures r == Err(InvalidDifficulty) <==>
      HasPlayerId(req) && RoleOf(req) in {"dodger", "thrower"} && DifficultyOf(req) !in {"easy", "medium", "hard"}
    ensures r == Err(PlayerNotFound) <==>
      && HasPlayerId(req) && RoleOf(req) in {"dodger", "thrower"} && DifficultyOf(req) in {"easy", "medium", "hard"}
      && req.playerId.value !in players
    ensures r.Ok? ==>
      && Proper(r.value)
      && r.value.key.playerId == req.playerId.value && r.value.key.playerId in players
      && RoleName(r.value.key.role) == RoleOf(req)
      && DifficultyName(r.value.key.difficulty) == DifficultyOf(req)
      && r.value.score == ScoreOf(req)
      && (r.value.wins == 1 <==> req.result == Some("win"))
      && (r.value.losses == 1 <==> req.result == Some("loss"))
  {
    if !HasPlayerId(req) then Err(PlayerIdRequired)
    else
      var role := ParseRole(RoleOf(req));
      if role.None? then Err(InvalidRole)
      else
        var difficulty := ParseDifficulty(DifficultyOf(req));
        if difficulty.None? then Err(InvalidDifficulty)
        else if req.playerId.value !in players then Err(PlayerNotFound)
        else
          var win := if req.result == Some("win") then 1 else 0;
          var loss := if req.result == Some("loss") then 1 else 0;
          RoleNameRoundTrip(role.value, RoleOf(req));
          DifficultyNameRoundTrip(difficulty.value, DifficultyOf(req));
          Ok(Submission(Key(req.playerId.value, role.value, difficulty.value), ScoreOf(req), win, loss))
  }

  // ---------------------------------------------------------------------
  // POST /api/score: the upsert
  // ---------------------------------------------------------------------

  /** INSERT ... ON DUPLICATE KEY UPDATE on leaderboard_stats: a new key
      gets a row with one game played; an existing row adds the score, one
      game and the increments. No other row changes. */
  function Upsert(table: map<Key, Stats>, sub: Submission): (r: map<Key, Stats>)
    ensures r.Keys == table.Keys + {sub.key}
    ensures forall k :: k in table && k != sub.key ==> r[k] == table[k]
    ensures sub.key !in table ==> r[sub.key] == Stats(sub.score, 1, sub.wins, sub.losses)
    ensures sub.key in table ==>
      && r[sub.key].totalScore == table[sub.key].totalScore + sub.score
      && r[sub.key].gamesPlayed == table[sub.key].gamesPlayed + 1
      && r[sub.key].wins == table[sub.key].wins + sub.wins
      && r[sub.key].losses == table[sub.key].losses + sub.losses
  {
    if sub.key in table then
      var row := table[sub.key];
      table[sub.key := Stats(row.totalScore + sub.score, row.gamesPlayed + 1,
                              row.wins + sub.wins, row.losses + sub.losses)]
    else
      table[sub.key := Stats(sub.score, 1, sub.wins, sub.losses)]
  }

  /** Every row has at least one game, and its wins and losses together
      never exceed its games. */
  predicate Coherent(table: map<Key, Stats>)
  {
    forall k :: k in table ==>
      && table[k].gamesPlayed >= 1 && table[k].wins >= 0 && table[k].losses >= 0
      && table[k].wins + table[k].losses <= table[k].gamesPlayed
  }

  /** The upsert of a validated submission keeps the table coherent. */
  lemma UpsertCoherent(table: map<Key, Stats>, sub: Submission)
    requires Coherent(table) && Proper(sub)
    ensures Coherent(Upsert(table, sub))
  {
    var r := Upsert(table, sub);
    forall k | k in r
      ensures r[k].gamesPlayed >= 1 && r[k].wins >= 0 && r[k].losses >= 0
      ensures r[k].wins + r[k].losses <= r[k].gamesPlayed
    {
      if k != sub.key {
        assert r[k] == table[k];
      }
    }
  }

  /** The table after the given submissions, in order, from an empty one. */
  function Replay(subs: seq<Submission>): map<Key, Stats>
  {
    if subs == [] then map[] else Upsert(Replay(subs[..|subs| - 1]), subs[|subs| - 1])
  }

  /** What the submissions for key k add up to, counted directly. */
  function Tally(subs: seq<Submission>, k: Key): Stats
  {
    if subs == [] then Stats(0, 0, 0, 0)
    else
      var t := Tally(subs[..|subs| - 1], k);
      var s := subs[|subs| - 1];
      if s.key == k then Stats(t.totalScore + s.score, t.gamesPlayed + 1, t.wins + s.wins, t.losses + s.losses)
      else t
  }

  /** Replaying the upserts gives, for each key, exactly one row when some
      submission named it, and that row holds the sum of their scores, the
      number of games and the numbers of wins and losses. */
  lemma {:induction false} ReplayIsTally(subs: seq<Submission>, k: Key)
    ensures Tally(subs, k).gamesPlayed >= 0
    ensures Tally(subs, k).gamesPlayed == 0 ==> Tally(subs, k) == Stats(0, 0, 0, 0)
    ensures k in Replay(subs) <==> Tally(subs, k).gamesPlayed > 0
    ensures k in Replay(subs) ==> Replay(subs)[k] == Tally(subs, k)
  {
    if subs != [] {
      ReplayIsTally(subs[..|subs| - 1], k);
    }
  }

  /** A table built only from validated submissions is coherent. */
  lemma {:induction false} ReplayCoherent(subs: seq<Submission>)
    requires forall i :: 0 <= i < |subs| ==> Proper(subs[i])
    ensures Coherent(Replay(subs))
  {
    if subs != [] {
      ReplayCoherent(subs[..|subs| - 1]);
      UpsertCoherent(Replay(subs[..|subs| - 1]), subs[|subs| - 1]);
    }
  }

  // ---------------------------------------------------------------------
  // getLeaderboard
  // ---------------------------------------------------------------------

  /** A result row of the leaderboard query (the join with `players`). */
  datatype Entry = Entry(playerId: int, name: string, totalScore: int, gamesPlayed: int, wins: int, losses: int)

  function EntryOf(k: Key, s: Stats, name: string): Entry
  {
    Entry(k.playerId, name, s.totalScore, s.gamesPlayed, s.wins, s.losses)
  }

  /** `WHERE lb.role = ? AND lb.difficulty = ?`, compared as strings. */
  predicate Selected(k: Key, role: string, difficulty: string)
  {
    RoleName(k.role) == role && DifficultyName(k.difficulty) == difficulty
  }

  /** Every row the join and the filter let through. */
  ghost function Board(table: map<Key, Stats>, players: map<int, string>, role: string, difficulty: string): set<Entry>
  {
    set k | k in table && k.playerId in players && Selected(k, role, difficulty)
      :: EntryOf(k, table[k], players[k.playerId])
  }

  predicate SortedDesc(r: seq<Entry>)
  {
    forall i, j :: 0 <= i < j < |r| ==> r[i].totalScore >= r[j].totalScore
  }

  predicate Distinct(r: seq<Entry>)
  {
    forall i, j :: 0 <= i < j < |r| ==> r[i] != r[j]
  }

  /** A finite non-empty set of rows has one with the largest total score. */
  lemma {:induction false} HighestExists(es: set<Entry>)
    requires es != {}
    ensures exists e :: e in es && forall o :: o in es ==> o.totalScore <= e.totalScore
    decreases |es|
  {
    var x :| x in es;
    if es != {x} {
      var rest := es - {x};
      HighestExists(rest);
      var m :| m in rest && forall o :: o in rest ==> o.totalScore <= m.totalScore;
      if x.totalScore <= m.totalScore {
        assert forall o :: o in es ==> o.totalScore <= m.totalScore;
      } else {
        assert forall o :: o in es ==> o.totalScore <= x.totalScore;
      }
    } else {
      assert forall o :: o in es ==> o.totalScore <= x.totalScore;
    }
  }

  /** `ORDER BY total_score DESC`: the rows, each once, highest total
      first; rows with equal totals come in an unspecified order. */
  ghost function OrderDesc(es: set<Entry>): (r: seq<Entry>)
    ensures |r| == |es| && SortedDesc(r) && Distinct(r)
    ensures forall i :: 0 <= i < |r| ==> r[i] in es
    ensures forall e :: e in es ==> e in r
    decreases |es|
  {
    if es == {} then []
    else
      HighestExists(es);
      var e :| e in es && forall o :: o in es ==> o.totalScore <= e.totalScore;
      [e] + OrderDesc(es - {e})
  }

  /** getLeaderboard(role, difficulty, limit): the selected rows, highest
      total first, cut to `limit`; a limit below zero makes the query fail
      and the helper answers with no rows. */
  ghost function Leaderboard(table: map<Key, Stats>, players: map<int, string>, role: string, difficulty: string, limit: int): (r: seq<Entry>)
    ensures limit <= 0 ==> r == []
    ensures limit > 0 ==> |r| == if limit < |Board(table, players, role, difficulty)| then limit else |Board(table, players, role, difficulty)|
    ensures SortedDesc(r) && Distinct(r)
    ensures forall i :: 0 <= i < |r| ==> r[i] in Board(table, players, role, difficulty)
    ensures forall e :: e in Board(table, players, role, difficulty) && e !in r && r != [] ==>
      e.totalScore <= r[|r| - 1].totalScore
    ensures limit >= |Board(table, players, role, difficulty)| ==>
      forall e :: e in Board(table, players, role, difficulty) ==> e in r
  {
    if limit <= 0 then []
    else
      var all := OrderDesc(Board(table, players, role, difficulty));
      var n := if limit < |all| then limit else |all|;
      TopOfSorted(all, n);
      all[..n]
  }

  /** A prefix of a sorted list of distinct rows is sorted and distinct,
      and every row left out scores at most the last one kept. */
  lemma TopOfSorted(all: seq<Entry>, n: nat)
    requires SortedDesc(all) && Distinct(all) && n <= |all|
    ensures SortedDesc(all[..n]) && Distinct(all[..n])
    ensures forall i :: 0 <= i < n ==> all[..n][i] == all[i]
    ensures forall e :: e in all && e !in all[..n] && n > 0 ==> e.totalScore <= all[n - 1].totalScore
    ensures n == |all| ==> forall e :: e in all ==> e in all[..n]
  {
    forall e | e in all && e !in all[..n] && n > 0
      ensures e.totalScore <= all[n - 1].totalScore
    {
      assert all == all[..n] + all[n..];
      assert e in all[n..];
      var j :| 0 <= j < |all[n..]| && all[n..][j] == e;
      assert all[n + j] == e;
    }
    if n == |all| {
      assert all[..n] == all;
    }
  }

  /** Within one role and difficulty a player has at most one row, so no
      player appears twice on the leaderboard. */
  lemma LeaderboardOnePerPlayer(table: map<Key, Stats>, players: map<int, string>, role: string, difficulty: string, limit: int)
    ensures var r := Leaderboard(table, players, role, difficulty, limit);
      forall i, j :: 0 <= i < j < |r| ==> r[i].playerId != r[j].playerId
  {
    var r := Leaderboard(table, players, role, difficulty, limit);
    forall i, j | 0 <= i < j < |r|
      ensures r[i].playerId != r[j].playerId
    {
      var b := Board(table, players, role, difficulty);
      assert r[i] in b && r[j] in b;
      var ki :| ki in table && ki.playerId in players && Selected(ki, role, difficulty)
        && r[i] == EntryOf(ki, table[ki], players[ki.playerId]);
      var kj :| kj in table && kj.playerId in players && Selected(kj, role, difficulty)
        && r[j] == EntryOf(kj, table[kj], players[kj.playerId]);
      RoleNameRoundTrip(ki.role, role);
      RoleNameRoundTrip(kj.role, role);
      DifficultyNameRoundTrip(ki.difficulty, difficulty);
      DifficultyNameRoundTrip(kj.difficulty, difficulty);
      assert ki.playerId == kj.playerId ==> ki == kj;
    }
  }

  // ---------------------------------------------------------------------
  // The database
  // ---------------------------------------------------------------------

  /** The two tables the handlers write, and the AUTO_INCREMENT counter of
      `players`. */
  class Database {
    var players: map<int, string>
    var nextId: int
    var stats: map<Key, Stats>

    /** Ids are positive and below the counter, every stats row refers to
        a player (the foreign key), and the counters are coherent. */
    ghost predicate Valid()
      reads this
    {
      && nextId >= 1
      && (forall id :: id in players ==> 1 <= id < nextId)
      && (forall k :: k in stats ==> k.playerId in players)
      && Coherent(stats)
    }

    /** Freshly created, empty tables. */
    constructor()
      ensures Valid() && players == map[] && stats == map[]
    {
      players, nextId, stats := map[], 1, map[];
    }

    /** createPlayer: insert a row with a fresh auto-increment id, larger
        than every id before it, and read it back. */
    method CreatePlayer(name: string) returns (p: Player)
      requires Valid()
      modifies this
      ensures Valid()
      ensures p.name == name && p.id >= 1 && p.id !in old(players)
      ensures forall id :: id in old(players) ==> id < p.id
      ensures players == old(players)[p.id := name] && stats == old(stats)
    {
      var id := nextId;
      players := players[id := name];
      nextId := nextId + 1;
      p := Player(id, players[id]);
    }

    /** POST /api/start: a missing or empty name is answered with 400 and
        creates nothing; any other name creates a player. */
    method Start(name: Option<string>) returns (r: Result<Player, string>)
      requires Valid()
      modifies this
      ensures Valid()
      ensures r.Err? <==> name.None? || name.value == ""
      ensures r.Err? ==> players == old(players) && stats == old(stats) && nextId == old(nextId)
      ensures r.Ok? ==>
        && r.value.name == name.value && r.value.id !in old(players)
        && players == old(players)[r.value.id := name.value] && stats == old(stats)
    {
      if name.None? || name.value == "" {
        return Err("Name is required");
      }
      var p := CreatePlayer(name.value);
      r := Ok(p);
    }

    /** POST /api/score: validate, then upsert the one row the submission
        names; a rejected request changes nothing. */
    method SubmitScore(req: ScoreRequest) returns (r: Result<Submission, Rejection>)
      requires Valid()
      modifies this
      ensures Valid()
      ensures r == ValidateScore(req, old(players))
      ensures players == old(players) && nextId == old(nextId)
      ensures stats == if r.Ok? then Upsert(old(stats), r.value) else old(stats)
    {
      r := ValidateScore(req, players);
      if r.Err? {
        return;
      }
      var sub := r.value;
      UpsertCoherent(stats, sub);
      if sub.key in stats {
        var row := stats[sub.key];
        stats := stats[sub.key := Stats(row.totalScore + sub.score, row.gamesPlayed + 1,
                                        row.wins + sub.wins, row.losses + sub.losses)];
      } else {
        stats := stats[sub.key := Stats(sub.score, 1, sub.wins, sub.losses)];
      }
    }
  }
}
