/** The three difficulty tiers. The client keys its tuning table by these
    names and the server stores them in an ENUM column, so both sides share
    one definition. */
module Tiers {
  import opened Wrappers

  datatype Difficulty = Easy | Medium | Hard

  function DifficultyName(d: Difficulty): string
  {
    match d
    case Easy => "easy"
    case Medium => "medium"
    case Hard => "hard"
  }

  /** The membership test `['easy', 'medium', 'hard'].includes(s)`, returning the tier it names. */
  function ParseDifficulty(s: string): (r: Option<Difficulty>)
    ensures r.Some? <==> s in {"easy", "medium", "hard"}
  {
    if s == "easy" then Some(Easy)
    else if s == "medium" then Some(Medium)
    else if s == "hard" then Some(Hard)
    else None
  }

  /** Names and parsing are inverse to each other. */
  lemma DifficultyNameRoundTrip(d: Difficulty, s: string)
    ensures ParseDifficulty(DifficultyName(d)) == Some(d)
    ensures ParseDifficulty(s) == Some(d) <==> s == DifficultyName(d)
  {
  }
}
