/** Starting a game: the fresh state, and the guard applied to a saved game
    when it is loaded. Reading the store and parsing it are left to the
    caller; a missing or unparsable save arrives here as `None`. */
module Persistence {
  import opened State

  const StartingCoins: int := 15

  datatype Option<T> = None | Some(value: T)

  /** The fresh game: 15 coins, level 1, no experience, nothing owned, ids
      starting at 1. */
  function InitialState(): (s: GameState)
    ensures Valid(s)
    ensures s.coins == StartingCoins && s.level == 1 && s.exp == 0
    ensures |s.plants| == 0 && |s.animals| == 0 && s.nextId == 1
  {
    GameState(StartingCoins, 1, 0, [], [], 1)
  }

  /** A save that is broke and owns nothing is treated as degenerate: its
      purse is reset to the starting grant. Any other save, and every field
      but the purse, passes through untouched. */
  function LoadGuard(data: GameState): (r: GameState)
    ensures r == data.(coins := r.coins)
    ensures r.coins != data.coins <==> data.coins == 0 && |data.plants| == 0 && |data.animals| == 0
    ensures r.coins != data.coins ==> r.coins == StartingCoins
    ensures r.coins >= data.coins
    ensures Valid(data) ==> Valid(r)
  {
    if data.coins == 0 && |data.plants| == 0 && |data.animals| == 0 then
      data.(coins := StartingCoins)
    else
      data
  }

  /** The state the game starts from: the fresh game when there is no usable
      save, otherwise the guarded save. It is valid whenever the save is. */
  function Load(saved: Option<GameState>): (r: GameState)
    ensures saved.None? ==> r == InitialState()
    ensures saved.Some? ==> r == LoadGuard(saved.value)
    ensures saved.None? ==> Valid(r) && r.coins == StartingCoins
    ensures saved.Some? && Valid(saved.value) ==> Valid(r)
    ensures saved.Some? ==> r.level == saved.value.level && r.exp == saved.value.exp && r.plants == saved.value.plants
                            && r.animals == saved.value.animals && r.nextId == saved.value.nextId
  {
    match saved
    case None => InitialState()
    case Some(data) => LoadGuard(data)
  }

  /** Loading twice is loading once: the guard's output never triggers it
      again. */
  lemma LoadGuardIdempotent(data: GameState)
    ensures LoadGuard(LoadGuard(data)) == LoadGuard(data)
  {
  }
}
