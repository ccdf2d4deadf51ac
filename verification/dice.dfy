/**
 The dice engine of the game logic: a pool of hero, red and black dice, the
 fixed face table of each kind, and the roll that lists one symbol per die
 and totals suns and skulls.

 The random draw of the game logic (a uniform integer in 1..6 per die) is an
 input here: a sequence of faces, one per die, consumed hero dice first,
 then red dice, then black dice, exactly as the three loops of the roll
 consume the generator.
 */
module Dice {

  /** One face of a six-sided die, as the random generator draws it. */
  type Face = f: int | 1 <= f <= 6 witness 1

  datatype DieKind = HeroDie | RedDie | BlackDie

  /** What a die shows once rolled. */
  datatype Symbol = Sun | Blank | Skull | DoubleSkull

  /** The text the roll records for each symbol. */
  function Glyph(s: Symbol): string {
    match s
    case Sun => "☀"
    case Blank => "⬜"
    case Skull => "💀"
    case DoubleSkull => "💀💀"
  }

  /** The four symbols are written as four different strings, so the roll
      text tells every symbol apart. */
  lemma GlyphsDistinct(a: Symbol, b: Symbol)
    ensures Glyph(a) == Glyph(b) <==> a == b
  {
  }

  /** The face table: hero dice show a sun on 5-6 and a skull on 1-2, red
      dice a skull on every face but 3-4, black dice a double skull on 5-6
      and a skull on 1-2; 3-4 is blank on every kind. */
  function SymbolOf(kind: DieKind, f: Face): (sym: Symbol)
    ensures sym == Blank <==> f == 3 || f == 4
    ensures f <= 2 ==> sym == Skull
    ensures f >= 5 ==> sym == (match kind case HeroDie => Sun case RedDie => Skull case BlackDie => DoubleSkull)
    ensures sym == Sun ==> kind == HeroDie
    ensures sym == DoubleSkull ==> kind == BlackDie
  {
    match kind
    case HeroDie => if f >= 5 then Sun else if f >= 3 then Blank else Skull
    case RedDie => if 3 <= f <= 4 then Blank else Skull
    case BlackDie => if f >= 5 then DoubleSkull else if f >= 3 then Blank else Skull
  }

  /** What a symbol adds to the sun total. */
  function SunValue(s: Symbol): nat {
    if s == Sun then 1 else 0
  }

  /** What a symbol adds to the skull total. */
  function SkullValue(s: Symbol): nat {
    match s
    case Skull => 1
    case DoubleSkull => 2
    case _ => 0
  }

  /** Total suns shown by a sequence of symbols. */
  function Suns(syms: seq<Symbol>): nat {
    if syms == [] then 0 else Suns(syms[..|syms| - 1]) + SunValue(syms[|syms| - 1])
  }

  /** Total skulls shown by a sequence of symbols. */
  function Skulls(syms: seq<Symbol>): nat {
    if syms == [] then 0 else Skulls(syms[..|syms| - 1]) + SkullValue(syms[|syms| - 1])
  }

  /** Number of faces in `faces` that lie in `lo..hi`. */
  function Hits(faces: seq<Face>, lo: int, hi: int): nat {
    if faces == [] then 0
    else Hits(faces[..|faces| - 1], lo, hi) + (if lo <= faces[|faces| - 1] <= hi then 1 else 0)
  }

  /** The symbols shown by a run of dice of one kind, in roll order. */
  function Symbols(kind: DieKind, faces: seq<Face>): (syms: seq<Symbol>)
    ensures |syms| == |faces|
    ensures forall i :: 0 <= i < |faces| ==> syms[i] == SymbolOf(kind, faces[i])
  {
    if faces == [] then []
    else Symbols(kind, faces[..|faces| - 1]) + [SymbolOf(kind, faces[|faces| - 1])]
  }

  /** Appending a symbol adds its value to the totals. */
  lemma TotalsStep(syms: seq<Symbol>, s: Symbol)
    ensures Suns(syms + [s]) == Suns(syms) + SunValue(s)
    ensures Skulls(syms + [s]) == Skulls(syms) + SkullValue(s)
  {
  }

  /** A dice pool: how many dice of each kind are rolled. */
  datatype Pool = Pool(hero: nat, red: nat, black: nat)

  function DiceCount(p: Pool): nat {
    p.hero + p.red + p.black
  }

  /** The result of a roll: the symbols per kind of die, in roll order, and
      the totals. */
  datatype Outcome = Outcome(
    heroResults: seq<Symbol>,
    redResults: seq<Symbol>,
    blackResults: seq<Symbol>,
    suns: nat,
    skulls: nat)

  /** The faces drawn for the hero, red and black dice of a pool. */
  function HeroFaces(p: Pool, faces: seq<Face>): seq<Face>
    requires |faces| == DiceCount(p)
  {
    faces[..p.hero]
  }

  function RedFaces(p: Pool, faces: seq<Face>): seq<Face>
    requires |faces| == DiceCount(p)
  {
    faces[p.hero..p.hero + p.red]
  }

  function BlackFaces(p: Pool, faces: seq<Face>): seq<Face>
    requires |faces| == DiceCount(p)
  {
    faces[p.hero + p.red..]
  }

  /** Reference definition of a roll: every die is read through the face
      table and the totals count every symbol shown. */
  function Roll(p: Pool, faces: seq<Face>): (o: Outcome)
    requires |faces| == DiceCount(p)
    ensures |o.heroResults| == p.hero && |o.redResults| == p.red && |o.blackResults| == p.black
    ensures forall i :: 0 <= i < p.hero ==> o.heroResults[i] == SymbolOf(HeroDie, faces[i])
    ensures forall i :: 0 <= i < p.red ==> o.redResults[i] == SymbolOf(RedDie, faces[p.hero + i])
    ensures forall i :: 0 <= i < p.black ==> o.blackResults[i] == SymbolOf(BlackDie, faces[p.hero + p.red + i])
  {
    var hs := Symbols(HeroDie, HeroFaces(p, faces));
    var rs := Symbols(RedDie, RedFaces(p, faces));
    var bs := Symbols(BlackDie, BlackFaces(p, faces));
    Outcome(hs, rs, bs, Suns(hs) + Suns(rs) + Suns(bs), Skulls(hs) + Skulls(rs) + Skulls(bs))
  }

  /** The totals of a run of dice, counted straight from the faces. */
  lemma {:induction false} SymbolsCount(kind: DieKind, faces: seq<Face>)
    ensures Suns(Symbols(kind, faces)) == (if kind == HeroDie then Hits(faces, 5, 6) else 0)
    ensures Skulls(Symbols(kind, faces)) ==
      match kind
      case HeroDie => Hits(faces, 1, 2)
      case RedDie => Hits(faces, 1, 2) + Hits(faces, 5, 6)
      case BlackDie => Hits(faces, 1, 2) + 2 * Hits(faces, 5, 6)
  {
    if faces != [] {
      var front := faces[..|faces| - 1];
      SymbolsCount(kind, front);
      var syms := Symbols(kind, faces);
      assert syms[..|syms| - 1] == Symbols(kind, front);
    }
  }

  /** Faces in two disjoint ranges are never counted twice. */
  lemma {:induction false} HitsDisjoint(faces: seq<Face>, a: int, b: int, c: int, d: int)
    requires b < c
    ensures Hits(faces, a, b) + Hits(faces, c, d) <= |faces|
  {
    if faces != [] {
      HitsDisjoint(faces[..|faces| - 1], a, b, c, d);
    }
  }

  /** The totals of a roll, in terms of the faces drawn: one sun per hero
      die on 5-6; one skull per hero die on 1-2, per red die on 1-2 or
      5-6 and per black die on 1-2; two skulls per black die on 5-6. */
  lemma RollCounts(p: Pool, faces: seq<Face>)
    requires |faces| == DiceCount(p)
    ensures var o := Roll(p, faces);
      var hf, rf, bf := HeroFaces(p, faces), RedFaces(p, faces), BlackFaces(p, faces);
      && o.suns == Hits(hf, 5, 6)
      && o.skulls == Hits(hf, 1, 2) + Hits(rf, 1, 2) + Hits(rf, 5, 6) + Hits(bf, 1, 2) + 2 * Hits(bf, 5, 6)
  {
    SymbolsCount(HeroDie, HeroFaces(p, faces));
    SymbolsCount(RedDie, RedFaces(p, faces));
    SymbolsCount(BlackDie, BlackFaces(p, faces));
  }

  /** Only hero dice show suns: the sun total is the number of suns among
      the hero results. */
  lemma RollSunsAreHeroSuns(p: Pool, faces: seq<Face>)
    requires |faces| == DiceCount(p)
    ensures Roll(p, faces).suns == Suns(Roll(p, faces).heroResults)
  {
    SymbolsCount(RedDie, RedFaces(p, faces));
    SymbolsCount(BlackDie, BlackFaces(p, faces));
  }

  /** No roll shows more suns than hero dice, nor more skulls than one per
      hero or red die and two per black die. */
  lemma RollBounds(p: Pool, faces: seq<Face>)
    requires |faces| == DiceCount(p)
    ensures Roll(p, faces).suns <= p.hero
    ensures Roll(p, faces).skulls <= p.hero + p.red + 2 * p.black
  {
    var hf, rf, bf := HeroFaces(p, faces), RedFaces(p, faces), BlackFaces(p, faces);
    RollCounts(p, faces);
    HitsDisjoint(hf, 1, 2, 5, 6);
    HitsDisjoint(rf, 1, 2, 5, 6);
    HitsDisjoint(bf, 1, 2, 5, 6);
  }

  /** An empty pool rolls nothing: three empty result lists and zero totals. */
  lemma RollEmptyPool(faces: seq<Face>)
    requires |faces| == 0
    ensures Roll(Pool(0, 0, 0), faces) == Outcome([], [], [], 0, 0)
  {
    var p := Pool(0, 0, 0);
    assert HeroFaces(p, faces) == [] && RedFaces(p, faces) == [] && BlackFaces(p, faces) == [];
  }

  /** The hero-dice loop of the roll: per face, a sun on 5-6 (one sun
      more), blank on 3-4, a skull on 1-2 (one skull more). */
  method RollHeroDice(faces: seq<Face>) returns (results: seq<Symbol>, suns: nat, skulls: nat)
    ensures results == Symbols(HeroDie, faces)
    ensures suns == Suns(results) && skulls == Skulls(results)
  {
    results, suns, skulls := [], 0, 0;
    var i := 0;
    while i < |faces|
      invariant 0 <= i <= |faces|
      invariant |results| == i && forall j :: 0 <= j < i ==> results[j] == SymbolOf(HeroDie, faces[j])
      invariant suns == Suns(results) && skulls == Skulls(results)
    {
      var result := faces[i];
      TotalsStep(results, SymbolOf(HeroDie, result));
      if result == 6 || result == 5 {
        suns := suns + 1;
        assert SymbolOf(HeroDie, result) == Sun;
        results := results + [Sun];
      } else if result == 4 || result == 3 {
        assert SymbolOf(HeroDie, result) == Blank;
        results := results + [Blank];
      } else {
        assert SymbolOf(HeroDie, result) == Skull;
        skulls := skulls + 1;
        results := results + [Skull];
      }
      i := i + 1;
    }
  }

  /** The red-dice loop of the roll: per face, blank on 3-4 and a skull
      (one skull more) on every other face. */
  method RollRedDice(faces: seq<Face>) returns (results: seq<Symbol>, skulls: nat)
    ensures results == Symbols(RedDie, faces)
    ensures Suns(results) == 0 && skulls == Skulls(results)
  {
    results, skulls := [], 0;
    var i := 0;
    while i < |faces|
      invariant 0 <= i <= |faces|
      invariant |results| == i && forall j :: 0 <= j < i ==> results[j] == SymbolOf(RedDie, faces[j])
      invariant Suns(results) == 0 && skulls == Skulls(results)
    {
      var result := faces[i];
      TotalsStep(results, SymbolOf(RedDie, result));
      if result == 6 || result == 5 || result == 2 || result == 1 {
        assert SymbolOf(RedDie, result) == Skull;
        skulls := skulls + 1;
        results := results + [Skull];
      } else {
        assert SymbolOf(RedDie, result) == Blank;
        results := results + [Blank];
      }
      i := i + 1;
    }
  }

  /** The black-dice loop of the roll: per face, a double skull on 5-6 (two
      skulls more), blank on 3-4, a skull on 1-2 (one skull more). */
  method RollBlackDice(faces: seq<Face>) returns (results: seq<Symbol>, skulls: nat)
    ensures results == Symbols(BlackDie, faces)
    ensures Suns(results) == 0 && skulls == Skulls(results)
  {
    results, skulls := [], 0;
    var i := 0;
    while i < |faces|
      invariant 0 <= i <= |faces|
      invariant |results| == i && forall j :: 0 <= j < i ==> results[j] == SymbolOf(BlackDie, faces[j])
      invariant Suns(results) == 0 && skulls == Skulls(results)
    {
      var result := faces[i];
      TotalsStep(results, SymbolOf(BlackDie, result));
      if result == 6 || result == 5 {
        skulls := skulls + 2;
        assert SymbolOf(BlackDie, result) == DoubleSkull;
        results := results + [DoubleSkull];
      } else if result == 4 || result == 3 {
        assert SymbolOf(BlackDie, result) == Blank;
        results := results + [Blank];
      } else {
        assert SymbolOf(BlackDie, result) == Skull;
        skulls := skulls + 1;
        results := results + [Skull];
      }
      i := i + 1;
    }
  }

  /** The roll as the game logic performs it: the hero, red and black loops
      in turn, each drawing one face per die of its kind from the shared
      face source, with the totals accumulated across the three. It
      computes the reference roll and keeps within its bounds. */
  method RollDice(p: Pool, faces: seq<Face>) returns (o: Outcome)
    requires |faces| == DiceCount(p)
    ensures o == Roll(p, faces)
    ensures o.suns <= p.hero && o.skulls <= p.hero + p.red + 2 * p.black
  {
    var heroResults, suns, skulls := RollHeroDice(HeroFaces(p, faces));
    var redResults, redSkulls := RollRedDice(RedFaces(p, faces));
    skulls := skulls + redSkulls;
    var blackResults, blackSkulls := RollBlackDice(BlackFaces(p, faces));
    skulls := skulls + blackSkulls;
    o := Outcome(heroResults, redResults, blackResults, suns, skulls);
    RollBounds(p, faces);
  }
}
