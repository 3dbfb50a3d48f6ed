/** The garden: watering grows a plant stage by stage; harvesting consumes it
    for coins and experience. */
module Garden {
  import opened State
  import opened Progression

  /** Water one watering adds. */
  const WaterStep: int := 25
  const WaterExp: int := 5
  const HarvestExp: int := 25
  const HarvestBase: int := 20
  const HarvestPerLevel: int := 5

  /** One watering of one plant. Water rises by a step, capped at the plant's
      maximum; a plant that is still growing and reaches the cap advances one
      stage and starts over dry, in the same call. A plant at the final stage
      is not refused: its stage stays, but its water still rises. */
  function WaterOne(p: Plant): (q: Plant)
    ensures q == p.(waterLevel := q.waterLevel, growthStage := q.growthStage)
    ensures q.growthStage == p.growthStage || q.growthStage == p.growthStage + 1
    ensures q.growthStage == p.growthStage + 1
            <==> p.growthStage < FinalStage && p.waterLevel + WaterStep >= p.maxWater
    ensures q.growthStage == p.growthStage + 1 ==> q.waterLevel == 0
    ensures q.growthStage == p.growthStage ==> q.waterLevel == Min(p.waterLevel + WaterStep, p.maxWater)
    ensures PlantOk(p) ==> PlantOk(q)
  {
    var waterLevel := Min(p.waterLevel + WaterStep, p.maxWater);
    if waterLevel >= p.maxWater && p.growthStage < FinalStage then
      p.(waterLevel := 0, growthStage := p.growthStage + 1)
    else
      p.(waterLevel := waterLevel)
  }

  /** Waters every plant whose id is `id` and leaves the rest as they were,
      in place; then awards the watering experience whether or not any plant
      matched. Coins, animals and the id counter do not move. */
  function Water(s: GameState, id: int): (r: GameState)
    ensures |r.plants| == |s.plants|
    ensures forall i :: 0 <= i < |s.plants| && s.plants[i].id != id ==> r.plants[i] == s.plants[i]
    ensures forall i :: 0 <= i < |s.plants| && s.plants[i].id == id ==> r.plants[i] == WaterOne(s.plants[i])
    ensures r.(plants := s.plants) == WithExp(s, WaterExp)
  {
    var plants := seq(|s.plants|, i requires 0 <= i < |s.plants| =>
      if s.plants[i].id != id then s.plants[i] else WaterOne(s.plants[i]));
    WithExp(s.(plants := plants), WaterExp)
  }

  /** The plants whose id is not `id`, in their original order: the source's
      filter. */
  function RemoveId(ps: seq<Plant>, id: int): (r: seq<Plant>)
    ensures |r| <= |ps|
    ensures forall q :: q in r ==> q in ps && q.id != id
    ensures forall q :: q in ps && q.id != id ==> q in r
  {
    if |ps| == 0 then []
    else if ps[0].id == id then RemoveId(ps[1..], id)
    else [ps[0]] + RemoveId(ps[1..], id)
  }

  /** Coins a harvest pays at a given level. */
  function HarvestReward(level: int): int
  {
    HarvestBase + HarvestPerLevel * level
  }

  /** Harvests the plant with id `id`. An unknown id changes nothing.
      Otherwise the plant leaves the garden, the purse gains a reward fixed
      by the level held before the harvest, and the harvest experience is
      awarded after that. The updater does not look at the plant's stage. */
  function Harvest(s: GameState, id: int): (r: GameState)
    ensures !HasPlant(s.plants, id) ==> r == s
    ensures HasPlant(s.plants, id) ==>
      && r.coins == s.coins + HarvestReward(s.level)
      && r.plants == RemoveId(s.plants, id)
      && !HasPlant(r.plants, id)
      && |r.plants| < |s.plants|
      && r.animals == s.animals
      && r.nextId == s.nextId
      && r.(plants := s.plants, coins := s.coins) == WithExp(s, HarvestExp)
      && (r.level == s.level || r.level == s.level + 1)
      && TotalExp(r.level, r.exp) == TotalExp(s.level, s.exp) + HarvestExp
  {
    if !HasPlant(s.plants, id) then s
    else
      var plants := RemoveId(s.plants, id);
      var k :| 0 <= k < |s.plants| && s.plants[k].id == id;
      assert s.plants[k] !in plants;
      RemoveIdShrinks(s.plants, id, k);
      WithExp(s.(plants := plants, coins := s.coins + HarvestReward(s.level)), HarvestExp)
  }

  lemma RemoveIdShrinks(ps: seq<Plant>, id: int, k: int)
    requires 0 <= k < |ps| && ps[k].id == id
    ensures |RemoveId(ps, id)| < |ps|
  {
    if k > 0 && ps[0].id != id {
      RemoveIdShrinks(ps[1..], id, k - 1);
    }
  }

  /** Four waterings take a dry, growing plant to the next stage, dry again;
      the first three only fill it a quarter at a time. */
  lemma FourWateringsAdvanceOneStage(p: Plant)
    requires PlantOk(p) && p.waterLevel == 0 && p.growthStage < FinalStage
    ensures WaterOne(p) == p.(waterLevel := 25)
    ensures WaterOne(WaterOne(p)) == p.(waterLevel := 50)
    ensures WaterOne(WaterOne(WaterOne(p))) == p.(waterLevel := 75)
    ensures WaterOne(WaterOne(WaterOne(WaterOne(p)))) == p.(growthStage := p.growthStage + 1)
  {
  }

  /** Watering a harvestable plant keeps it harvestable but still fills it:
      only the missing button, not the rule, keeps the player from doing so. */
  lemma WaterAtFinalStageStillFills(p: Plant)
    requires PlantOk(p) && p.growthStage == FinalStage
    ensures WaterOne(p).growthStage == FinalStage
    ensures WaterOne(p).waterLevel == Min(p.waterLevel + WaterStep, MaxWater)
    ensures p.waterLevel < MaxWater ==> WaterOne(p).waterLevel > p.waterLevel
  {
  }

  /** Watering an id no plant has leaves the garden as it was yet still pays
      the watering experience. */
  lemma WaterUnknownIdStillAwards(s: GameState, id: int)
    requires !HasPlant(s.plants, id)
    ensures Water(s, id).plants == s.plants
    ensures TotalExp(Water(s, id).level, Water(s, id).exp) == TotalExp(s.level, s.exp) + WaterExp
  {
  }

  /** With distinct ids, watering the plant at index `k` replaces exactly that
      element of the garden and nothing else. */
  lemma WaterTouchesOnlyTarget(s: GameState, k: int)
    requires PlantIdsDistinct(s.plants) && 0 <= k < |s.plants|
    ensures Water(s, s.plants[k].id).plants == s.plants[k := WaterOne(s.plants[k])]
  {
  }

  /** In a game with distinct plant ids, four waterings of a dry, growing
      plant advance exactly that plant by one stage, leave it dry, leave
      every other plant alone and award 20 experience in total. */
  lemma FourWateringsInGame(s: GameState, k: int)
    requires PlantIdsDistinct(s.plants) && 0 <= k < |s.plants|
    requires PlantOk(s.plants[k]) && s.plants[k].waterLevel == 0
    requires s.plants[k].growthStage < FinalStage
    ensures var id := s.plants[k].id;
      var r := Water(Water(Water(Water(s, id), id), id), id);
      && r.plants == s.plants[k := s.plants[k].(growthStage := s.plants[k].growthStage + 1)]
      && r.coins == s.coins && r.animals == s.animals && r.nextId == s.nextId
      && TotalExp(r.level, r.exp) == TotalExp(s.level, s.exp) + 4 * WaterExp
  {
  }

  /** The filter counts right for repeated entries too: every plant with
      the id is gone, every other plant occurs exactly as often as before. */
  lemma {:induction false} RemoveIdMultiplicity(ps: seq<Plant>, id: int, q: Plant)
    ensures q.id == id ==> multiset(RemoveId(ps, id))[q] == 0
    ensures q.id != id ==> multiset(RemoveId(ps, id))[q] == multiset(ps)[q]
  {
    if |ps| > 0 {
      RemoveIdMultiplicity(ps[1..], id, q);
      assert ps == [ps[0]] + ps[1..];
      assert multiset(ps) == multiset([ps[0]]) + multiset(ps[1..]);
      if ps[0].id != id {
        assert multiset(RemoveId(ps, id)) == multiset([ps[0]]) + multiset(RemoveId(ps[1..], id));
      }
    }
  }

  /** Filtering an id no plant has keeps the garden as it is. */
  lemma {:induction false} RemoveIdAbsent(ps: seq<Plant>, id: int)
    requires !HasPlant(ps, id)
    ensures RemoveId(ps, id) == ps
  {
    if |ps| > 0 {
      assert !HasPlant(ps[1..], id) by {
        forall i | 0 <= i < |ps[1..]| ensures ps[1..][i].id != id {
          assert ps[1..][i] == ps[i + 1];
        }
      }
      RemoveIdAbsent(ps[1..], id);
      assert ps == [ps[0]] + ps[1..];
    }
  }

  lemma DistinctTail(ps: seq<Plant>)
    requires PlantIdsDistinct(ps) && |ps| > 0
    ensures PlantIdsDistinct(ps[1..])
  {
    var tail := ps[1..];
    forall i, j | 0 <= i < |tail| && 0 <= j < |tail| && tail[i].id == tail[j].id ensures i == j {
      assert tail[i] == ps[i + 1] && tail[j] == ps[j + 1];
    }
  }

  /** With distinct ids, the filter removes exactly the one plant carrying
      `id` and keeps the others in their order. */
  lemma {:induction false} RemoveIdAtIndex(ps: seq<Plant>, id: int, k: int)
    requires PlantIdsDistinct(ps) && 0 <= k < |ps| && ps[k].id == id
    ensures RemoveId(ps, id) == ps[..k] + ps[k + 1..]
  {
    if k == 0 {
      RemoveIdAtHead(ps, id);
    } else {
      var tail := ps[1..];
      DistinctTail(ps);
      assert tail[k - 1] == ps[k];
      RemoveIdAtIndex(tail, id, k - 1);
      assert ps[0].id != id;
      ConsSplit(ps, k);
    }
  }

  lemma RemoveIdAtHead(ps: seq<Plant>, id: int)
    requires PlantIdsDistinct(ps) && |ps| > 0 && ps[0].id == id
    ensures RemoveId(ps, id) == ps[1..]
  {
    assert !HasPlant(ps[1..], id) by {
      forall i | 0 <= i < |ps[1..]| ensures ps[1..][i].id != id {
        assert ps[1..][i] == ps[i + 1];
      }
    }
    RemoveIdAbsent(ps[1..], id);
  }

  lemma ConsSplit(ps: seq<Plant>, k: int)
    requires 0 < k < |ps|
    ensures [ps[0]] + (ps[1..][..k - 1] + ps[1..][k..]) == ps[..k] + ps[k + 1..]
  {
    assert ps[1..][..k - 1] == ps[1..k] && ps[1..][k..] == ps[k + 1..];
    assert ps[..k] == [ps[0]] + ps[1..k];
  }

  /** The filter never creates a duplicate id. */
  lemma {:induction false} RemoveIdKeepsDistinct(ps: seq<Plant>, id: int)
    requires PlantIdsDistinct(ps)
    ensures PlantIdsDistinct(RemoveId(ps, id))
  {
    if HasPlant(ps, id) {
      var k :| 0 <= k < |ps| && ps[k].id == id;
      RemoveIdAtIndex(ps, id, k);
      var r := ps[..k] + ps[k + 1..];
      forall i, j | 0 <= i < |r| && 0 <= j < |r| && r[i].id == r[j].id ensures i == j {
        var i' := if i < k then i else i + 1;
        var j' := if j < k then j else j + 1;
        assert r[i] == ps[i'] && r[j] == ps[j'];
      }
    } else {
      RemoveIdAbsent(ps, id);
    }
  }

  /** With distinct ids, harvesting the plant at index `k` removes exactly
      that element of the garden and keeps the others in order. */
  lemma HarvestRemovesExactlyOne(s: GameState, k: int)
    requires PlantIdsDistinct(s.plants) && 0 <= k < |s.plants|
    ensures Harvest(s, s.plants[k].id).plants == s.plants[..k] + s.plants[k + 1..]
  {
    RemoveIdAtIndex(s.plants, s.plants[k].id, k);
  }

  /** Watering keeps the game valid: plant bounds by `WaterOne`, ids because
      no plant's id changes, the bar because the award is small. */
  lemma WaterKeepsValid(s: GameState, id: int)
    requires Valid(s)
    ensures Valid(Water(s, id))
  {
  }

  /** Harvesting keeps the game valid; in particular the purse only grows. */
  lemma HarvestKeepsValid(s: GameState, id: int)
    requires Valid(s)
    ensures Valid(Harvest(s, id))
    ensures Harvest(s, id).coins >= s.coins
  {
    if HasPlant(s.plants, id) {
      var r := Harvest(s, id);
      RemoveIdKeepsDistinct(s.plants, id);
      forall i | 0 <= i < |r.plants|
        ensures PlantOk(r.plants[i]) && r.plants[i].id < r.nextId
        ensures forall j :: 0 <= j < |r.animals| ==> r.plants[i].id != r.animals[j].id
      {
        assert r.plants[i] in r.plants;
        var k :| 0 <= k < |s.plants| && s.plants[k] == r.plants[i];
      }
    }
  }
}
