/** The game state and the well-formedness every rule of the game keeps. */
module State {
  import opened Catalog

  /** Water a plant holds when it is full; every purchased plant gets this cap. */
  const MaxWater: int := 100
  /** The terminal, harvestable growth stage. */
  const FinalStage: int := 3
  /** Upper bound of both animal stats. */
  const StatCap: int := 100

  /** A planted crop. `plantedAt` is the purchase time, supplied by the caller. */
  datatype Plant = Plant(
    id: int,
    kind: PlantKind,
    growthStage: int,
    waterLevel: int,
    maxWater: int,
    growthTime: int,
    plantedAt: int)

  /** An adopted animal. Hunger only ever moves by whole units; happiness moves
      in halves, so it is an exact `real`. */
  datatype Animal = Animal(id: int, kind: AnimalKind, hunger: int, happiness: real)

  /** The whole game: purse, progression, both collections and the id counter
      shared by plants and animals. */
  datatype GameState = GameState(
    coins: int,
    level: int,
    exp: int,
    plants: seq<Plant>,
    animals: seq<Animal>,
    nextId: int)

  function Min(a: int, b: int): int { if a <= b then a else b }

  function Max(a: int, b: int): int { if a >= b then a else b }

  function MinR(a: real, b: real): real { if a <= b then a else b }

  function MaxR(a: real, b: real): real { if a >= b then a else b }

  /** Experience needed to leave `level`. */
  function Threshold(level: int): int { level * 100 }

  /** The progression invariant: a level of at least one and an experience
      bar that has not yet reached the next threshold. */
  predicate ProgressionOk(level: int, exp: int)
  {
    level >= 1 && 0 <= exp < Threshold(level)
  }

  /** A plant as purchases create it and watering keeps it: full cap, stage
      within 0..3, water within 0..cap, and never sitting at full water while
      it can still grow. */
  predicate PlantOk(p: Plant)
  {
    && p.maxWater == MaxWater
    && 0 <= p.growthStage <= FinalStage
    && 0 <= p.waterLevel <= p.maxWater
    && (p.growthStage < FinalStage ==> p.waterLevel < p.maxWater)
  }

  predicate AnimalOk(a: Animal)
  {
    && 0 <= a.hunger <= StatCap
    && 0.0 <= a.happiness <= StatCap as real
  }

  predicate HasPlant(ps: seq<Plant>, id: int)
  {
    exists i :: 0 <= i < |ps| && ps[i].id == id
  }

  predicate HasAnimal(xs: seq<Animal>, id: int)
  {
    exists i :: 0 <= i < |xs| && xs[i].id == id
  }

  predicate PlantIdsDistinct(ps: seq<Plant>)
  {
    forall i, j :: 0 <= i < |ps| && 0 <= j < |ps| && ps[i].id == ps[j].id ==> i == j
  }

  predicate AnimalIdsDistinct(xs: seq<Animal>)
  {
    forall i, j :: 0 <= i < |xs| && 0 <= j < |xs| && xs[i].id == xs[j].id ==> i == j
  }

  /** Ids come from one counter, so no plant shares an id with an animal. */
  predicate IdsDisjoint(ps: seq<Plant>, xs: seq<Animal>)
  {
    forall i, j :: 0 <= i < |ps| && 0 <= j < |xs| ==> ps[i].id != xs[j].id
  }

  /** Every id handed out so far is below the counter. */
  predicate IdsBelow(s: GameState)
  {
    && (forall i :: 0 <= i < |s.plants| ==> s.plants[i].id < s.nextId)
    && (forall i :: 0 <= i < |s.animals| ==> s.animals[i].id < s.nextId)
  }

  predicate IdsOk(s: GameState)
  {
    PlantIdsDistinct(s.plants) && AnimalIdsDistinct(s.animals)
    && IdsDisjoint(s.plants, s.animals) && IdsBelow(s)
  }

  /** The invariant of a game reached from the fresh state by player actions
      and ticks. */
  predicate Valid(s: GameState)
  {
    && s.coins >= 0
    && ProgressionOk(s.level, s.exp)
    && (forall i :: 0 <= i < |s.plants| ==> PlantOk(s.plants[i]))
    && (forall i :: 0 <= i < |s.animals| ==> AnimalOk(s.animals[i]))
    && IdsOk(s)
  }
}
