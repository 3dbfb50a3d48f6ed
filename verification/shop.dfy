/** The shop: a purchase checks the purse and applies itself in one step, so
    two purchases can never both spend the same coins. */
module Shop {
  import opened Catalog
  import opened State

  /** Buys seed packet `index` at time `now`. Without enough coins nothing
      changes. Otherwise the price leaves the purse, a dry stage-0 plant with
      the counter's id joins the end of the garden, and the counter moves on.
      No experience is awarded. */
  function BuyPlant(s: GameState, index: int, now: int): (r: GameState)
    requires 0 <= index < |PlantItems|
    ensures s.coins < PlantItems[index].price ==> r == s
    ensures s.coins >= PlantItems[index].price ==>
      && r.coins == s.coins - PlantItems[index].price
      && 0 <= r.coins < s.coins
      && r.nextId == s.nextId + 1
      && |r.plants| == |s.plants| + 1
      && r.plants[..|s.plants|] == s.plants
      && r.plants[|s.plants|] == Plant(s.nextId, PlantItems[index].kind, 0, 0, MaxWater,
                                       PlantItems[index].growthTime, now)
      && PlantOk(r.plants[|s.plants|])
      && r.animals == s.animals && r.level == s.level && r.exp == s.exp
    ensures IdsOk(s) ==> IdsOk(r)
  {
    var item := PlantItems[index];
    if s.coins < item.price then s
    else
      var plant := Plant(s.nextId, item.kind, 0, 0, MaxWater, item.growthTime, now);
      var r := s.(coins := s.coins - item.price, plants := s.plants + [plant], nextId := s.nextId + 1);
      assert forall i :: 0 <= i < |s.plants| ==> r.plants[i] == s.plants[i];
      r
  }

  /** Adopts animal `index`. Without enough coins nothing changes. Otherwise
      the price leaves the purse, the animal joins the end of the shelter
      with the counter's id and the catalog's starting stats (50 and 50 for
      every kind), and the counter moves on. No experience is awarded. */
  function BuyAnimal(s: GameState, index: int): (r: GameState)
    requires 0 <= index < |AnimalItems|
    ensures s.coins < AnimalItems[index].price ==> r == s
    ensures s.coins >= AnimalItems[index].price ==>
      && r.coins == s.coins - AnimalItems[index].price
      && 0 <= r.coins < s.coins
      && r.nextId == s.nextId + 1
      && |r.animals| == |s.animals| + 1
      && r.animals[..|s.animals|] == s.animals
      && r.animals[|s.animals|] == Animal(s.nextId, AnimalItems[index].kind, 50, 50.0)
      && AnimalOk(r.animals[|s.animals|])
      && r.plants == s.plants && r.level == s.level && r.exp == s.exp
    ensures IdsOk(s) ==> IdsOk(r)
  {
    var item := AnimalItems[index];
    if s.coins < item.price then s
    else
      var animal := Animal(s.nextId, item.kind, item.hunger, item.happiness as real);
      var r := s.(coins := s.coins - item.price, animals := s.animals + [animal], nextId := s.nextId + 1);
      assert forall i :: 0 <= i < |s.animals| ==> r.animals[i] == s.animals[i];
      r
  }

  /** Purchases keep the game valid. */
  lemma BuyPlantKeepsValid(s: GameState, index: int, now: int)
    requires Valid(s) && 0 <= index < |PlantItems|
    ensures Valid(BuyPlant(s, index, now))
  {
  }

  lemma BuyAnimalKeepsValid(s: GameState, index: int)
    requires Valid(s) && 0 <= index < |AnimalItems|
    ensures Valid(BuyAnimal(s, index))
  {
  }

  /** Two seed purchases made one after the other, where the purse covers
      only the first: the second sees the reduced purse and is refused, so
      exactly one plant is bought and paid for. */
  lemma SecondPurchaseSeesSpentCoins(s: GameState, i: int, j: int, t1: int, t2: int)
    requires 0 <= i < |PlantItems| && 0 <= j < |PlantItems|
    requires PlantItems[i].price <= s.coins < PlantItems[i].price + PlantItems[j].price
    ensures BuyPlant(BuyPlant(s, i, t1), j, t2) == BuyPlant(s, i, t1)
    ensures |BuyPlant(BuyPlant(s, i, t1), j, t2).plants| == |s.plants| + 1
    ensures BuyPlant(BuyPlant(s, i, t1), j, t2).coins == s.coins - PlantItems[i].price
  {
  }

  /** With 50 coins and two 30-coin pumpkin packets, only one is bought and
      20 coins remain. */
  lemma DoublePumpkinScenario(s: GameState, t1: int, t2: int)
    requires s.coins == 50
    ensures PlantItems[4].price == 30
    ensures BuyPlant(BuyPlant(s, 4, t1), 4, t2).coins == 20
    ensures |BuyPlant(BuyPlant(s, 4, t1), 4, t2).plants| == |s.plants| + 1
  {
  }
}
