/** The shop's static offers, in the order the shop lists them. Index `i` of
    each table is the index a purchase names. */
module Catalog {

  datatype PlantKind = Tomato | Carrot | Sunflower | Strawberry | Pumpkin | Rose

  datatype AnimalKind = Rabbit | Cat | Dog | Chicken | Pig | Duck

  /** A seed packet: what it grows, its price in coins, and a growth-time hint
      in milliseconds that is copied into the plant but read by no rule. */
  datatype PlantItem = PlantItem(kind: PlantKind, price: int, growthTime: int)

  /** An adoptable animal: its price and the stats the new animal starts with. */
  datatype AnimalItem = AnimalItem(kind: AnimalKind, price: int, happiness: int, hunger: int)

  const PlantItems: seq<PlantItem> := [
    PlantItem(Tomato, 10, 30000),
    PlantItem(Carrot, 15, 25000),
    PlantItem(Sunflower, 20, 40000),
    PlantItem(Strawberry, 25, 35000),
    PlantItem(Pumpkin, 30, 50000),
    PlantItem(Rose, 40, 45000)
  ]

  const AnimalItems: seq<AnimalItem> := [
    AnimalItem(Rabbit, 50, 50, 50),
    AnimalItem(Cat, 60, 50, 50),
    AnimalItem(Dog, 70, 50, 50),
    AnimalItem(Chicken, 40, 50, 50),
    AnimalItem(Pig, 80, 50, 50),
    AnimalItem(Duck, 45, 50, 50)
  ]

  predicate PlantOffered(k: PlantKind)
  {
    exists i :: 0 <= i < |PlantItems| && PlantItems[i].kind == k
  }

  predicate AnimalOffered(k: AnimalKind)
  {
    exists i :: 0 <= i < |AnimalItems| && AnimalItems[i].kind == k
  }

  /** Six offers of each sort, every price positive, every kind offered
      exactly once, and every animal starting half hungry and half happy
      whatever its kind. */
  lemma CatalogShape()
    ensures |PlantItems| == 6 && |AnimalItems| == 6
    ensures forall i :: 0 <= i < |PlantItems| ==> PlantItems[i].price > 0
    ensures forall i :: 0 <= i < |AnimalItems| ==> AnimalItems[i].price > 0
    ensures forall k: PlantKind :: PlantOffered(k)
    ensures forall k: AnimalKind :: AnimalOffered(k)
    ensures forall i, j :: 0 <= i < |PlantItems| && 0 <= j < |PlantItems| && PlantItems[i].kind == PlantItems[j].kind ==> i == j
    ensures forall i, j :: 0 <= i < |AnimalItems| && 0 <= j < |AnimalItems| && AnimalItems[i].kind == AnimalItems[j].kind ==> i == j
    ensures forall i :: 0 <= i < |AnimalItems| ==> AnimalItems[i].hunger == 50 && AnimalItems[i].happiness == 50
  {
    forall k: PlantKind
      ensures PlantOffered(k)
    {
      match k
      case Tomato => assert PlantItems[0].kind == k;
      case Carrot => assert PlantItems[1].kind == k;
      case Sunflower => assert PlantItems[2].kind == k;
      case Strawberry => assert PlantItems[3].kind == k;
      case Pumpkin => assert PlantItems[4].kind == k;
      case Rose => assert PlantItems[5].kind == k;
    }
    forall k: AnimalKind
      ensures AnimalOffered(k)
    {
      match k
      case Rabbit => assert AnimalItems[0].kind == k;
      case Cat => assert AnimalItems[1].kind == k;
      case Dog => assert AnimalItems[2].kind == k;
      case Chicken => assert AnimalItems[3].kind == k;
      case Pig => assert AnimalItems[4].kind == k;
      case Duck => assert AnimalItems[5].kind == k;
    }
  }
}
