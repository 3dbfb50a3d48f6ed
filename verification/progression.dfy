/** Experience and levels. An award adds to the bar; crossing the threshold of
    the current level spends that threshold and raises the level by one. */
module Progression {
  import opened State

  /** Experience banked over the whole game: the thresholds of every level
      already left (100 + 200 + ... + 100*(level-1)) plus the current bar. */
  function TotalExp(level: int, exp: int): int
  {
    50 * level * (level - 1) + exp
  }

  /** Awards `amount` experience and performs at most one level-up: the
      source tests the threshold with an `if`, not a loop. Nothing but the
      level and the bar changes, and no experience is lost or invented. */
  function WithExp(s: GameState, amount: int): (r: GameState)
    ensures r == s.(level := r.level, exp := r.exp)
    ensures r.level == s.level || r.level == s.level + 1
    ensures r.level == s.level + 1 <==> s.exp + amount >= Threshold(s.level)
    ensures TotalExp(r.level, r.exp) == TotalExp(s.level, s.exp) + amount
    ensures ProgressionOk(s.level, s.exp) && 0 <= amount <= 100 ==> ProgressionOk(r.level, r.exp)
  {
    var exp := s.exp + amount;
    if exp >= Threshold(s.level) then
      assert 50 * (s.level + 1) * s.level == 50 * s.level * (s.level - 1) + 100 * s.level;
      s.(exp := exp - Threshold(s.level), level := s.level + 1)
    else
      s.(exp := exp)
  }

  /** The normalisation of a loop that rolls over as many levels as the bar
      pays for. It restores the progression invariant for any award. */
  function Normalize(level: int, exp: int): (r: (int, int))
    requires level >= 1 && exp >= 0
    ensures ProgressionOk(r.0, r.1)
    ensures r.0 >= level
    ensures TotalExp(r.0, r.1) == TotalExp(level, exp)
    decreases exp
  {
    if exp >= Threshold(level) then
      assert 50 * (level + 1) * level == 50 * level * (level - 1) + 100 * level;
      Normalize(level + 1, exp - Threshold(level))
    else
      (level, exp)
  }

  /** For every award the game makes (at most 100, from a well-formed bar)
      the single level-up of `WithExp` is exactly what a rolling loop does. */
  lemma WithExpAgreesWithLoop(s: GameState, amount: int)
    requires ProgressionOk(s.level, s.exp)
    requires 0 <= amount <= 100
    ensures (WithExp(s, amount).level, WithExp(s, amount).exp) == Normalize(s.level, s.exp + amount)
  {
  }

  /** Awards above the game's largest one can leave the bar past its
      threshold: a 300-point award at level 1 stops at level 2 with a full
      bar of 200, where a rolling loop reaches level 3 with an empty bar. */
  lemma WithExpLevelsAtMostOnce()
    ensures WithExp(GameState(0, 1, 0, [], [], 1), 300).level == 2
    ensures WithExp(GameState(0, 1, 0, [], [], 1), 300).exp == 200
    ensures !ProgressionOk(2, 200)
    ensures Normalize(1, 300) == (3, 0)
  {
  }
}
