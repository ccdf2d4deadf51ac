/**
 The hero of the game logic: the character a player gets on joining a
 room, with its dice pool and the two roll modes built on the dice engine.
 */
module Heroes {
  import opened Dice

  /** What a player supplies for its hero when it joins a room. */
  datatype HeroParams = HeroParams(name: string, archetypeId: int, heroPathId: int)

  datatype Hero = Hero(
    name: string,
    archetypeId: int,
    heroPathId: int,
    hp: int,
    hope: int,
    qualities: seq<string>,
    dicePool: Pool)

  /** Hit points of a hero that has not been assigned any yet. */
  const UnassignedHp: int := -1

  /** The parameters a hero was built from. */
  function ParamsOf(h: Hero): HeroParams {
    HeroParams(h.name, h.archetypeId, h.heroPathId)
  }

  /** A hero that has not played yet: empty pool, unassigned hit points, no
      hope and no qualities. */
  predicate Unplayed(h: Hero) {
    && h.dicePool == Pool(0, 0, 0)
    && h.hp == UnassignedHp
    && h.hope == 0
    && h.qualities == []
  }

  /** The hero constructor: keeps the parameters and starts unplayed. */
  function NewHero(params: HeroParams): (h: Hero)
    ensures ParamsOf(h) == params
    ensures Unplayed(h)
  {
    Hero(params.name, params.archetypeId, params.heroPathId, UnassignedHp, 0, [], Pool(0, 0, 0))
  }

  /** The constructor is the only way to an unplayed hero with given
      parameters. */
  lemma NewHeroUnique(h: Hero)
    requires Unplayed(h)
    ensures h == NewHero(ParamsOf(h))
  {
  }

  /** What a forced roll reports: the roll and whether it succeeded. */
  datatype ForcedResult = ForcedResult(outcome: Outcome, success: bool)

  /** A forced roll: rolls the pool as it is and succeeds unless skulls
      outnumber suns, so a tie succeeds. The hero is not changed. */
  function ForcedRoll(h: Hero, faces: seq<Face>): (r: ForcedResult)
    requires |faces| == DiceCount(h.dicePool)
    ensures r.outcome == Roll(h.dicePool, faces)
    ensures r.success <==> r.outcome.skulls <= r.outcome.suns
  {
    var results := Roll(h.dicePool, faces);
    var success := results.skulls <= results.suns;
    ForcedResult(results, success)
  }

  /** A tied forced roll is a success. */
  lemma ForcedRollTieSucceeds(h: Hero, faces: seq<Face>)
    requires |faces| == DiceCount(h.dicePool)
    requires Roll(h.dicePool, faces).suns == Roll(h.dicePool, faces).skulls
    ensures ForcedRoll(h, faces).success
  {
  }

  /** What an action roll leaves behind: the changed hero and the roll. */
  datatype ActionResult = ActionResult(hero: Hero, outcome: Outcome)

  /** An action roll: adds one hero die to the pool for good, then rolls
      the grown pool. Only the hero-die count changes. */
  function ActionRoll(h: Hero, faces: seq<Face>): (r: ActionResult)
    requires |faces| == DiceCount(h.dicePool) + 1
    ensures r.hero.dicePool.hero == h.dicePool.hero + 1
    ensures r.hero.dicePool.red == h.dicePool.red && r.hero.dicePool.black == h.dicePool.black
    ensures ParamsOf(r.hero) == ParamsOf(h)
    ensures r.hero.hp == h.hp && r.hero.hope == h.hope && r.hero.qualities == h.qualities
    ensures r.outcome == Roll(r.hero.dicePool, faces)
    ensures |r.outcome.heroResults| == h.dicePool.hero + 1
  {
    var grown := h.(dicePool := h.dicePool.(hero := h.dicePool.hero + 1));
    ActionResult(grown, Roll(grown.dicePool, faces))
  }

  /** An action roll from an empty pool rolls exactly one die, a hero die,
      and leaves one hero die in the pool. */
  lemma ActionRollFromEmptyPool(h: Hero, faces: seq<Face>)
    requires h.dicePool == Pool(0, 0, 0) && |faces| == 1
    ensures ActionRoll(h, faces).hero.dicePool == Pool(1, 0, 0)
    ensures ActionRoll(h, faces).outcome.heroResults == [SymbolOf(HeroDie, faces[0])]
    ensures ActionRoll(h, faces).outcome.redResults == []
    ensures ActionRoll(h, faces).outcome.blackResults == []
  {
  }
}
