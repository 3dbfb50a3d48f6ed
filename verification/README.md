# Garden & Shelter game engine, modelled in Dafny

This project models the game rules of a small incremental browser game. The
player grows plants and looks after animals. The rules live in
`components/GardenGame.tsx` as the state updaters passed to `setGameState`
and the helper `withExp`. Here each updater is a pure function from a
`GameState` and an input to a new `GameState`:

- **Progression** (`Progression`): `withExp` adds experience and levels up at
  most once per call.
- **Garden** (`Garden`): watering grows a plant through stages 0–3. Harvest
  removes the plant and pays `20 + 5*level` coins plus 25 experience.
- **Shelter** (`Shelter`): feeding and playing change an animal's stats. A
  periodic tick raises hunger, lowers happiness, and may pay 2 coins for each
  happy animal. The random source is passed in as one draw per animal.
- **Shop** (`Shop`): plant and animal purchases from the fixed catalog
  (`Catalog`). Each purchase checks the purse inside the same transform that
  spends it.
- **Loading** (`Persistence`): the fresh game, and the guard that gives a
  broke, empty save its 15 starting coins back.
- **Game** (`Game`): all actions as one step function. It is proved that
  every run from a valid game stays valid (`State.Valid`).

`State.Valid` is the game invariant. It requires coins ≥ 0, level ≥ 1 and
`0 ≤ exp < 100*level`, plants with stage in 0..3 and water in 0..100 (never
full while still growing), animals with both stats in 0..100, and ids that
are distinct across plants and animals and below `nextId`.

Happiness is an exact `real`, because it moves in steps of 0.5. Every other
quantity is an unbounded `int`, and every value the game reaches is a whole
number.

The model follows the code as written. Four behaviours of the code are easy
to misread, and the model keeps each of them:

- `withExp` uses an `if`, not a loop, so one award can raise the level at
  most once. `Progression.WithExpAgreesWithLoop` proves this equals a rolling
  loop for every award the game makes (at most 100 points from a valid bar).
  `Progression.WithExpLevelsAtMostOnce` shows the two differ for a 300-point
  award.
- Watering, feeding and playing award their experience even when no entity
  has the given id.
- The water updater does not refuse a stage-3 plant: its water still rises.
  Only the UI hides the button.
- The harvest updater does not check the plant's stage. Only the UI hides
  the button until stage 3.

## Model

| member | source | states |
|---|---|---|
| Catalog.CatalogShape | components/GardenGame.tsx:41-57 | six seed packets and six animals with positive prices, each kind offered once, and every animal starting at hunger 50 and happiness 50 |
| Progression.WithExp | components/GardenGame.tsx:62-71 | an award changes only level and exp; the level rises by 0 or 1, by 1 exactly when the bar reaches `100*level`; total banked experience grows by exactly the award; an award of at most 100 keeps `0 ≤ exp < 100*level` |
| Progression.Normalize | components/GardenGame.tsx:62-71 | reference for the level-up: a rolling normaliser that restores `0 ≤ exp < 100*level` for any award, never lowers the level, and conserves banked experience |
| Progression.WithExpAgreesWithLoop | components/GardenGame.tsx:62-71 | for a valid bar and an award of at most 100, the single `if` gives the same level and exp as the rolling loop |
| Progression.WithExpLevelsAtMostOnce | components/GardenGame.tsx:66-69 | a 300-point award at level 1 stops at level 2 with exp 200, which breaks the invariant; the loop would reach level 3 with exp 0 |
| Garden.WaterOne | components/GardenGame.tsx:145-154 | watering changes only water and stage; the stage rises by 1 exactly when the plant is below stage 3 and water + 25 reaches the cap, and then water resets to 0; otherwise water becomes `min(water + 25, cap)`; plant bounds are kept |
| Garden.Water | components/GardenGame.tsx:143-156 | same number of plants in the same order; plants with another id are unchanged; plants with the id are watered; coins, animals and `nextId` are unchanged; 5 exp is awarded unconditionally |
| Garden.WaterTouchesOnlyTarget | components/GardenGame.tsx:145-154 | with distinct ids, watering plant `k` replaces exactly element `k` of the garden |
| Garden.FourWateringsAdvanceOneStage | components/GardenGame.tsx:147-152 | from water 0 below stage 3, waterings give 25, 50 and 75, and the fourth advances the stage by one with water back at 0 |
| Garden.FourWateringsInGame | components/GardenGame.tsx:143-156 | in a game with distinct ids, four waterings advance exactly that plant one stage, leave the others, coins, animals and `nextId` alone, and award 20 exp |
| Garden.WaterAtFinalStageStillFills | components/GardenGame.tsx:147-153 | watering a stage-3 plant keeps it at stage 3 but raises its water to `min(water + 25, 100)` |
| Garden.WaterUnknownIdStillAwards | components/GardenGame.tsx:145-155 | watering an id no plant has leaves the garden unchanged but still adds 5 exp |
| Garden.RemoveId | components/GardenGame.tsx:166 | the filter keeps exactly the plants whose id differs, never adds one, and never grows the list |
| Garden.RemoveIdMultiplicity | components/GardenGame.tsx:166 | for any plant, the filter leaves no copy of it when it has the id, and exactly as many copies as before when it does not, so repeated entries are counted right |
| Garden.RemoveIdAbsent | components/GardenGame.tsx:166 | filtering an id that is absent returns the garden unchanged |
| Garden.RemoveIdAtIndex | components/GardenGame.tsx:166 | with distinct ids, the filter removes exactly element `k` and keeps the others in order |
| Garden.RemoveIdKeepsDistinct | components/GardenGame.tsx:166 | the filter preserves distinct plant ids |
| Garden.Harvest | components/GardenGame.tsx:160-168 | an unknown id leaves the state unchanged; otherwise the plant is gone, coins rise by `20 + 5*level` at the pre-harvest level, the garden shrinks, animals and `nextId` are unchanged, and level and exp are those of a 25-point award (one level-up exactly when exp + 25 reaches `100*level`) |
| Garden.HarvestRemovesExactlyOne | components/GardenGame.tsx:163-166 | with distinct ids, harvesting plant `k` leaves exactly the garden without element `k`, in order |
| Garden.WaterKeepsValid | components/GardenGame.tsx:143-156 | watering preserves the game invariant |
| Garden.HarvestKeepsValid | components/GardenGame.tsx:160-168 | harvesting preserves the game invariant and never lowers coins |
| Shelter.FeedOne | components/GardenGame.tsx:176 | feeding changes only hunger, to `hunger - 20` or to 0 when hunger is below 20; animal bounds are kept |
| Shelter.PlayOne | components/GardenGame.tsx:186 | playing changes only happiness, to `happiness + 15` or to 100 when that would pass 100; animal bounds are kept |
| Shelter.Feed | components/GardenGame.tsx:173-179 | animals with the id are fed and every other animal is unchanged, in place; plants, coins and `nextId` are unchanged; 5 exp is awarded unconditionally |
| Shelter.Play | components/GardenGame.tsx:183-189 | animals with the id are played with and every other animal is unchanged, in place; plants, coins and `nextId` are unchanged; 10 exp is awarded unconditionally |
| Shelter.Decay | components/GardenGame.tsx:125-129 | decay changes only the two stats, to `min(hunger + 1, 100)` and `max(happiness - 0.5, 0)`, and keeps their bounds |
| Shelter.DecayAll | components/GardenGame.tsx:125-129 | the whole shelter decays animal by animal, in place |
| Shelter.Earners | components/GardenGame.tsx:130 | the paying animals form a subset of the decayed shelter, each still above happiness 70 |
| Shelter.EarnersCountIndices | components/GardenGame.tsx:130 | the filter's length equals the number of positions whose decayed animal is above 70 and whose draw is above 0.7 |
| Shelter.Tick | components/GardenGame.tsx:124-131 | every animal decays in place with its id kept; only animals and coins change; coins never fall and rise by at most 2 per animal |
| Shelter.TickPaysPerLuckyHappyAnimal | components/GardenGame.tsx:130-131 | coins rise by exactly 2 × the number of animals whose post-decay happiness is above 70 and whose draw is above 0.7 |
| Shelter.TickDecaysBeforeTesting | components/GardenGame.tsx:125-130 | eligibility uses post-decay happiness: an animal at 70.5 drops to 70 and does not pay on a 0.9 draw, but one at 71 pays |
| Shelter.Ticks | components/GardenGame.tsx:123-133 | any number of ticks keeps the number of animals |
| Shelter.TicksClosedForm | components/GardenGame.tsx:125-131 | after n ticks an in-bounds animal has its id, hunger `min(h + n, 100)` and happiness `max(hp - n/2, 0)`, so both stay in 0..100; coins never fall |
| Shelter.FeedKeepsValid | components/GardenGame.tsx:173-179 | feeding preserves the game invariant |
| Shelter.PlayKeepsValid | components/GardenGame.tsx:183-189 | playing preserves the game invariant |
| Shelter.TickKeepsValid | components/GardenGame.tsx:124-131 | a tick preserves the game invariant |
| Shop.BuyPlant | components/GardenGame.tsx:196-209 | without enough coins the state is unchanged; otherwise coins drop by exactly the price and stay ≥ 0, `nextId` rises by 1, and a dry stage-0 plant with cap 100 and `id = nextId` is appended with the others kept; no exp; the id invariant is kept |
| Shop.BuyAnimal | components/GardenGame.tsx:217-227 | without enough coins the state is unchanged; otherwise coins drop by exactly the price and stay ≥ 0, `nextId` rises by 1, and an animal with `id = nextId`, hunger 50 and happiness 50 is appended with the others kept; no exp; the id invariant is kept |
| Shop.BuyPlantKeepsValid | components/GardenGame.tsx:196-209 | a seed purchase preserves the game invariant |
| Shop.BuyAnimalKeepsValid | components/GardenGame.tsx:217-227 | an adoption preserves the game invariant |
| Shop.SecondPurchaseSeesSpentCoins | components/GardenGame.tsx:196-209 | when the purse covers only the first of two purchases, the second is refused, so exactly one plant is bought and paid for |
| Shop.DoublePumpkinScenario | components/GardenGame.tsx:196-209 | with 50 coins, two 30-coin pumpkin purchases buy one plant and leave 20 coins |
| Persistence.InitialState | components/GardenGame.tsx:74-81 | the fresh game is valid: 15 coins, level 1, exp 0, nothing owned, `nextId` 1 |
| Persistence.LoadGuard | components/GardenGame.tsx:96-98 | only coins can change, to 15, and exactly when the save has 0 coins, no plants and no animals; validity is kept |
| Persistence.LoadGuardIdempotent | components/GardenGame.tsx:96-98 | applying the guard twice is the same as applying it once |
| Persistence.Load | components/GardenGame.tsx:91-105 | with no usable save the game is exactly the fresh game; with a save it is the guarded save, so every field but coins is kept, and a valid save loads valid |
| Game.Step | components/GardenGame.tsx:143-227 | each action raises the level by at most 1 and never lowers it; only purchases move `nextId`, by 1; outside the shop coins never fall; purchases leave level and exp alone |
| Game.StepKeepsValid | components/GardenGame.tsx:143-227 | every action preserves the game invariant |
| Game.Run | components/GardenGame.tsx:143-227 | actions applied in order never lower the level or `nextId` |
| Game.RunKeepsValid | components/GardenGame.tsx:143-227 | any sequence of actions from a valid game ends in a valid game |
| Game.LoadedGamesStayValid | components/GardenGame.tsx:91-105 | a game started fresh or from a valid save stays valid through any sequence of actions |
| Game.FirstPlantScenario | components/GardenGame.tsx:193-209 | from the fresh game, buying tomato seeds leaves 5 coins and a dry stage-0 plant; four waterings bring it to stage 1 with water 0 and 20 exp, still not harvestable |

## Left out

- React plumbing: hooks, the level-up modal and its `prevLevel` detection, floating feedback text and rendering. These are UI, not game rules.
- `localStorage` reads and writes and `JSON.parse`. A missing or unparsable save reaches `Persistence.Load` as `None`, and the model starts from the fresh game.
- Timer scheduling (`setInterval` every 10 seconds, `setTimeout`). A tick is an action the caller applies.
- `Math.random()`: each tick takes one draw per animal as a parameter. The source draws only for animals above happiness 70, because `&&` short-circuits. With independent draws the payout has the same distribution, so unused draws are ignored.
- `Date.now()` for `plantedAt`: passed in as `now`.
- `growthTime` is copied from the catalog into the plant. No rule reads it.
- Names, icons, stage labels and the experience-bar percentage. These are display only. A plant or animal records its kind instead of its name.
- The handlers' early check against the rendered `gameState.coins` (lines 195 and 216) is left out. The check inside the updater decides.
- Shop indices outside the catalog: the source would fail on `undefined.price`. The UI only passes catalog indices, so the purchase functions require a valid index.
- Persistence.LoadGuard: does not model saves whose fields are missing or have the wrong type, because the model's saves are well-typed game states.
- JavaScript numbers are doubles. The model uses unbounded integers, because no reachable value comes near 2^53. Happiness is an exact real, because its halves are exact in binary floating point.
- `app/layout.tsx` is not part of this model. It holds page layout only.
