/** The game as a reducer: every player action and every tick is one
    whole-state transform, applied one after another. */
module Game {
  import opened Catalog
  import opened State
  import opened Progression
  import opened Garden
  import opened Shelter
  import opened Shop
  import opened Persistence

  /** Everything that changes the game. A tick carries the draws of its
      random source, one per animal; a seed purchase carries the time. */
  datatype Action =
    | WaterPlant(plantId: int)
    | HarvestPlant(plantId: int)
    | FeedAnimal(animalId: int)
    | PlayWithAnimal(animalId: int)
    | DecayTick(draws: seq<real>)
    | BuySeeds(plantIndex: int, now: int)
    | AdoptAnimal(animalIndex: int)

  /** Shop buttons only exist for catalog entries, and the random source
      supplies one draw per animal. */
  predicate Enabled(s: GameState, a: Action)
  {
    match a
    case DecayTick(draws) => |draws| == |s.animals|
    case BuySeeds(index, _) => 0 <= index < |PlantItems|
    case AdoptAnimal(index) => 0 <= index < |AnimalItems|
    case _ => true
  }

  predicate IsPurchase(a: Action)
  {
    a.BuySeeds? || a.AdoptAnimal?
  }

  /** One transform. Levels rise by at most one, the id counter never goes
      back, and outside the shop the purse never shrinks. */
  function Step(s: GameState, a: Action): (r: GameState)
    requires Enabled(s, a)
    ensures s.level <= r.level <= s.level + 1
    ensures r.nextId == s.nextId || (IsPurchase(a) && r.nextId == s.nextId + 1)
    ensures !IsPurchase(a) && s.level >= 1 ==> r.coins >= s.coins
    ensures IsPurchase(a) ==> r.level == s.level && r.exp == s.exp
  {
    match a
    case WaterPlant(id) => Water(s, id)
    case HarvestPlant(id) => Harvest(s, id)
    case FeedAnimal(id) => Feed(s, id)
    case PlayWithAnimal(id) => Play(s, id)
    case DecayTick(draws) => Tick(s, draws)
    case BuySeeds(index, now) => BuyPlant(s, index, now)
    case AdoptAnimal(index) => BuyAnimal(s, index)
  }

  /** Every transform keeps the game valid. */
  lemma StepKeepsValid(s: GameState, a: Action)
    requires Valid(s) && Enabled(s, a)
    ensures Valid(Step(s, a))
  {
    match a
    case WaterPlant(id) => WaterKeepsValid(s, id);
    case HarvestPlant(id) => HarvestKeepsValid(s, id);
    case FeedAnimal(id) => FeedKeepsValid(s, id);
    case PlayWithAnimal(id) => PlayKeepsValid(s, id);
    case DecayTick(draws) => TickKeepsValid(s, draws);
    case BuySeeds(index, now) => BuyPlantKeepsValid(s, index, now);
    case AdoptAnimal(index) => BuyAnimalKeepsValid(s, index);
  }

  /** Each action of the sequence is enabled in the state it meets. */
  predicate Runnable(s: GameState, actions: seq<Action>)
    decreases |actions|
  {
    |actions| == 0 || (Enabled(s, actions[0]) && Runnable(Step(s, actions[0]), actions[1..]))
  }

  /** The transforms applied in order, each seeing the result of the last. */
  function Run(s: GameState, actions: seq<Action>): (r: GameState)
    requires Runnable(s, actions)
    ensures r.level >= s.level && r.nextId >= s.nextId
    decreases |actions|
  {
    if |actions| == 0 then s else Run(Step(s, actions[0]), actions[1..])
  }

  /** Any run from a valid game ends in a valid game: coins never negative,
      the progression bar below its threshold, plants and animals within
      their bounds, ids distinct and below the counter. */
  lemma {:induction false} RunKeepsValid(s: GameState, actions: seq<Action>)
    requires Valid(s) && Runnable(s, actions)
    ensures Valid(Run(s, actions))
    decreases |actions|
  {
    if |actions| > 0 {
      StepKeepsValid(s, actions[0]);
      RunKeepsValid(Step(s, actions[0]), actions[1..]);
    }
  }

  /** Every game started from the fresh state or a valid save stays valid. */
  lemma LoadedGamesStayValid(saved: Option<GameState>, actions: seq<Action>)
    requires saved.Some? ==> Valid(saved.value)
    requires Runnable(Load(saved), actions)
    ensures Valid(Run(Load(saved), actions))
  {
    RunKeepsValid(Load(saved), actions);
  }

  /** From the fresh game: buying tomato seeds leaves 5 coins and a dry
      stage-0 plant; four waterings bring it to stage 1, dry again, with 20
      experience earned; it is not yet harvestable. */
  lemma FirstPlantScenario(now: int)
    ensures var s := BuyPlant(InitialState(), 0, now);
      && s.coins == 5 && |s.plants| == 1
      && s.plants[0].growthStage == 0 && s.plants[0].waterLevel == 0
    ensures var s := BuyPlant(InitialState(), 0, now);
      var r := Water(Water(Water(Water(s, 1), 1), 1), 1);
      && r.plants[0].growthStage == 1 && r.plants[0].waterLevel == 0
      && r.plants[0].growthStage < FinalStage
      && r.level == 1 && r.exp == 20 && r.coins == 5
  {
  }
}
