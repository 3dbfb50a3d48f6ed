/** The shelter: feeding and playing push an animal's stats back; the
    periodic tick lets hunger rise and happiness fall, and may pay out coins
    for happy animals. */
module Shelter {
  import opened State
  import opened Progression

  const FeedAmount: int := 20
  const FeedExp: int := 5
  const PlayAmount: real := 15.0
  const PlayExp: int := 10
  /** Happiness an animal must keep after decay to be eligible for income. */
  const HappyLine: real := 70.0
  /** A draw must exceed this for an eligible animal to pay out. */
  const LuckyDraw: real := 0.7
  /** Coins each paying animal adds. */
  const TickBonus: int := 2

  /** Feeding lowers hunger by 20, never below zero. */
  function FeedOne(a: Animal): (b: Animal)
    ensures b == a.(hunger := b.hunger)
    ensures b.hunger <= a.hunger || b.hunger == 0
    ensures a.hunger >= FeedAmount ==> b.hunger == a.hunger - FeedAmount
    ensures a.hunger < FeedAmount ==> b.hunger == 0
    ensures AnimalOk(a) ==> AnimalOk(b)
  {
    a.(hunger := Max(a.hunger - FeedAmount, 0))
  }

  /** Playing raises happiness by 15, never above 100. */
  function PlayOne(a: Animal): (b: Animal)
    ensures b == a.(happiness := b.happiness)
    ensures a.happiness + PlayAmount <= StatCap as real ==> b.happiness == a.happiness + PlayAmount
    ensures a.happiness + PlayAmount > StatCap as real ==> b.happiness == StatCap as real
    ensures AnimalOk(a) ==> AnimalOk(b)
  {
    a.(happiness := MinR(a.happiness + PlayAmount, StatCap as real))
  }

  /** Feeds every animal with id `id`; the feeding experience is awarded
      whether or not any animal matched. */
  function Feed(s: GameState, id: int): (r: GameState)
    ensures |r.animals| == |s.animals|
    ensures forall i :: 0 <= i < |s.animals| && s.animals[i].id != id ==> r.animals[i] == s.animals[i]
    ensures forall i :: 0 <= i < |s.animals| && s.animals[i].id == id ==> r.animals[i] == FeedOne(s.animals[i])
    ensures r.(animals := s.animals) == WithExp(s, FeedExp)
  {
    var animals := seq(|s.animals|, i requires 0 <= i < |s.animals| =>
      if s.animals[i].id == id then FeedOne(s.animals[i]) else s.animals[i]);
    WithExp(s.(animals := animals), FeedExp)
  }

  /** Plays with every animal with id `id`; the play experience is awarded
      whether or not any animal matched. */
  function Play(s: GameState, id: int): (r: GameState)
    ensures |r.animals| == |s.animals|
    ensures forall i :: 0 <= i < |s.animals| && s.animals[i].id != id ==> r.animals[i] == s.animals[i]
    ensures forall i :: 0 <= i < |s.animals| && s.animals[i].id == id ==> r.animals[i] == PlayOne(s.animals[i])
    ensures r.(animals := s.animals) == WithExp(s, PlayExp)
  {
    var animals := seq(|s.animals|, i requires 0 <= i < |s.animals| =>
      if s.animals[i].id == id then PlayOne(s.animals[i]) else s.animals[i]);
    WithExp(s.(animals := animals), PlayExp)
  }

  /** One tick of decay: hunger up by one to at most 100, happiness down by
      a half to at least zero. */
  function Decay(a: Animal): (b: Animal)
    ensures b == a.(hunger := b.hunger, happiness := b.happiness)
    ensures b.hunger == Min(a.hunger + 1, StatCap)
    ensures b.happiness == MaxR(a.happiness - 0.5, 0.0)
    ensures AnimalOk(a) ==> AnimalOk(b)
  {
    a.(hunger := Min(a.hunger + 1, StatCap), happiness := MaxR(a.happiness - 0.5, 0.0))
  }

  /** Whether an animal, already decayed, pays out on this draw. */
  predicate Earns(a: Animal, draw: real)
  {
    a.happiness > HappyLine && draw > LuckyDraw
  }

  /** The decayed animals that pay out, in shelter order: the source's
      filter, each animal paired with its own draw. */
  function Earners(decayed: seq<Animal>, draws: seq<real>): (r: seq<Animal>)
    requires |draws| == |decayed|
    ensures |r| <= |decayed|
    ensures forall a :: a in r ==> a in decayed && a.happiness > HappyLine
  {
    if |decayed| == 0 then []
    else
      var n := |decayed| - 1;
      Earners(decayed[..n], draws[..n]) + (if Earns(decayed[n], draws[n]) then [decayed[n]] else [])
  }

  /** The positions of the paying animals: an independent description of
      the payout, by index rather than by filtering. */
  function EarnerIndices(decayed: seq<Animal>, draws: seq<real>): set<int>
    requires |draws| == |decayed|
  {
    set i | 0 <= i < |decayed| && Earns(decayed[i], draws[i])
  }

  /** The decayed shelter, animal by animal. */
  function DecayAll(xs: seq<Animal>): (ys: seq<Animal>)
    ensures |ys| == |xs|
    ensures forall i :: 0 <= i < |xs| ==> ys[i] == Decay(xs[i])
  {
    seq(|xs|, i requires 0 <= i < |xs| => Decay(xs[i]))
  }

  /** One periodic tick with one injected draw per animal (the source calls
      its random source at this point). Every animal decays in place, ids and
      order kept; then each animal whose happiness is still above the line
      after decay and whose draw is lucky adds two coins. Nothing else moves,
      and the purse never shrinks. */
  function Tick(s: GameState, draws: seq<real>): (r: GameState)
    requires |draws| == |s.animals|
    ensures |r.animals| == |s.animals|
    ensures forall i :: 0 <= i < |s.animals| ==> r.animals[i].id == s.animals[i].id
    ensures forall i :: 0 <= i < |s.animals| ==> r.animals[i] == Decay(s.animals[i])
    ensures r.coins >= s.coins
    ensures r.coins <= s.coins + TickBonus * |s.animals|
    ensures r == s.(animals := r.animals, coins := r.coins)
  {
    var animals := DecayAll(s.animals);
    var bonus := |Earners(animals, draws)| * TickBonus;
    s.(animals := animals, coins := s.coins + bonus)
  }

  /** The filter counts exactly the positions that pay. */
  lemma {:induction false} EarnersCountIndices(decayed: seq<Animal>, draws: seq<real>)
    requires |draws| == |decayed|
    ensures |Earners(decayed, draws)| == |EarnerIndices(decayed, draws)|
  {
    if |decayed| > 0 {
      var n := |decayed| - 1;
      var pre, preDraws := decayed[..n], draws[..n];
      EarnersCountIndices(pre, preDraws);
      var below := EarnerIndices(pre, preDraws);
      var all := EarnerIndices(decayed, draws);
      assert forall i :: 0 <= i < n ==> pre[i] == decayed[i] && preDraws[i] == draws[i];
      if Earns(decayed[n], draws[n]) {
        assert all == below + {n};
        assert n !in below;
      } else {
        assert all == below;
      }
    }
  }

  /** The tick pays exactly two coins per animal that is above the happiness
      line after decay and drew above 0.7. */
  lemma TickPaysPerLuckyHappyAnimal(s: GameState, draws: seq<real>)
    requires |draws| == |s.animals|
    ensures Tick(s, draws).coins
            == s.coins + TickBonus * |set i | 0 <= i < |s.animals| && Earns(Decay(s.animals[i]), draws[i])|
  {
    var decayed := DecayAll(s.animals);
    EarnersCountIndices(decayed, draws);
    assert EarnerIndices(decayed, draws)
           == set i | 0 <= i < |s.animals| && Earns(Decay(s.animals[i]), draws[i]);
  }

  /** Decay comes before the eligibility test: an animal at 70.5 falls to 70
      and does not pay even on a lucky draw, though it was above the line
      before the tick; one at 71 falls to 70.5 and pays. */
  lemma TickDecaysBeforeTesting()
    ensures var a := Animal(1, Catalog.Rabbit, 50, 70.5);
      var s := GameState(0, 1, 0, [], [a], 2);
      Tick(s, [0.9]).animals[0].happiness == 70.0 && Tick(s, [0.9]).coins == 0
    ensures var a := Animal(1, Catalog.Rabbit, 50, 71.0);
      var s := GameState(0, 1, 0, [], [a], 2);
      Tick(s, [0.9]).coins == TickBonus
  {
  }

  /** Any number of ticks, each with its own draws. */
  function Ticks(s: GameState, rounds: seq<seq<real>>): (r: GameState)
    requires forall k :: 0 <= k < |rounds| ==> |rounds[k]| == |s.animals|
    ensures |r.animals| == |s.animals|
    decreases |rounds|
  {
    if |rounds| == 0 then s else Ticks(Tick(s, rounds[0]), rounds[1..])
  }

  /** After `n` ticks every animal has its hunger raised by `n` up to 100 and
      its happiness lowered by `n/2` down to zero, keeps its id, and the purse
      has not shrunk. So no number of ticks takes a stat out of 0..100. */
  lemma {:induction false} TicksClosedForm(s: GameState, rounds: seq<seq<real>>, i: int)
    requires forall k :: 0 <= k < |rounds| ==> |rounds[k]| == |s.animals|
    requires 0 <= i < |s.animals| && AnimalOk(s.animals[i])
    ensures var a := s.animals[i];
      var b := Ticks(s, rounds).animals[i];
      && b.id == a.id
      && b.hunger == Min(a.hunger + |rounds|, StatCap)
      && b.happiness == MaxR(a.happiness - 0.5 * |rounds| as real, 0.0)
    ensures Ticks(s, rounds).coins >= s.coins
    decreases |rounds|
  {
    if |rounds| > 0 {
      var t := Tick(s, rounds[0]);
      var rest := rounds[1..];
      assert forall k :: 0 <= k < |rest| ==> rest[k] == rounds[k + 1];
      TicksClosedForm(t, rest, i);
      assert Ticks(s, rounds) == Ticks(t, rest);
      var a, b := s.animals[i], t.animals[i];
      assert b.hunger == Min(a.hunger + 1, StatCap);
      assert Min(b.hunger + |rest|, StatCap) == Min(a.hunger + |rounds|, StatCap);
      assert b.happiness == MaxR(a.happiness - 0.5, 0.0);
      assert MaxR(b.happiness - 0.5 * |rest| as real, 0.0) == MaxR(a.happiness - 0.5 * |rounds| as real, 0.0);
    }
  }

  lemma FeedKeepsValid(s: GameState, id: int)
    requires Valid(s)
    ensures Valid(Feed(s, id))
  {
  }

  lemma PlayKeepsValid(s: GameState, id: int)
    requires Valid(s)
    ensures Valid(Play(s, id))
  {
  }

  lemma TickKeepsValid(s: GameState, draws: seq<real>)
    requires Valid(s) && |draws| == |s.animals|
    ensures Valid(Tick(s, draws))
  {
  }
}
