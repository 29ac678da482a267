/** The constant tables of utils/data.js: the six races, the seven elements
    and the boon and drawback tables, with the generated families (breath
    weapons, resistances, weaknesses, "Diversify:" entries) in the positions
    the tables splice them in. Fields only the page uses (`element`,
    `afterToggle`, `incompatible` of traits, `requiredFor`, tooltips,
    `disabled`) are not part of a trait here. */
module Data {
  import opened Traits

  /** Which of the six `apply*Traits` hooks a race carries. */
  datatype Hook = CuteboldHook | RoughboldHook | WereboldHook | FairyboldHook | RoboldHook | DogboldHook

  /** A race entry: its name, its twin quota (`startingKobolds`), the
      "Diversify:" entry it excludes, and its hook. */
  datatype Race = Race(name: string, startingKobolds: int, incompatible: string, hook: Hook)

  const RACES: seq<Race> := [
    Race("Cutebold", 5, "Diversify: Cutebold", CuteboldHook),
    Race("Roughbold", 4, "Diversify: Roughbold", RoughboldHook),
    Race("Werebold", 4, "Diversify: Werebold", WereboldHook),
    Race("Fairybold", 3, "Diversify: Fairybold", FairyboldHook),
    Race("Robold", 3, "Diversify: Robold", RoboldHook),
    Race("Dogbold", 3, "Diversify: Dogbold", DogboldHook)
  ]

  const ELEMENTS: seq<string> := ["Fire", "Water", "Lightning", "Acid", "Sound", "Darkness", "Light"]

  const BREATH_PREFIX := "Breath Weapon: "
  const RESISTANCE_PREFIX := "Elemental Resistance: "
  const WEAKNESS_PREFIX := "Elemental Weakness: "
  const DIVERSIFY_PREFIX := "Diversify: "

  /** A table entry rolled after another trait. */
  function After(name: string, p: real, dependency: string): Trait {
    Trait(name, Some(p), None, Some(dependency), None, false)
  }

  /** Appending to a prefix can be undone: what follows the prefix is what
      was appended. */
  lemma PrefixCancels(prefix: string)
    ensures forall a: string :: prefix <= prefix + a && (prefix + a)[|prefix|..] == a
  {
    forall a: string ensures prefix <= prefix + a && (prefix + a)[|prefix|..] == a {
      assert (prefix + a)[|prefix|..] == a;
    }
  }

  /** One generated family: `prefix + x` for each x, all of probability `p`.
      Every name carries the prefix, what follows it is the element it came
      from, so distinct elements give distinct names. */
  function Family(prefix: string, p: real, xs: seq<string>): (f: seq<Trait>)
    ensures |f| == |xs|
    ensures forall t | t in f ::
      prefix <= t.name && EffectiveProb(t) == p && t.rolledAfter.None? && !t.guaranteedByRace
    ensures forall i | 0 <= i < |xs| :: f[i].name[|prefix|..] == xs[i]
    ensures forall i, j | 0 <= i < |xs| && 0 <= j < |xs| :: f[i].name == f[j].name <==> xs[i] == xs[j]
  {
    PrefixCancels(prefix);
    seq(|xs|, i requires 0 <= i < |xs| => Plain(prefix + xs[i], p))
  }

  /** The weaknesses: `WEAKNESS_PREFIX + x`, each rolled after the resistance
      of x: every weakness is rolled after the resistance of its own element. */
  function Weaknesses(xs: seq<string>): (f: seq<Trait>)
    ensures |f| == |xs|
    ensures forall t | t in f ::
      && WEAKNESS_PREFIX <= t.name && EffectiveProb(t) == 0.65
      && t.rolledAfter == Some(RESISTANCE_PREFIX + t.name[|WEAKNESS_PREFIX|..])
    ensures forall i | 0 <= i < |xs| :: f[i].name[|WEAKNESS_PREFIX|..] == xs[i]
  {
    PrefixCancels(WEAKNESS_PREFIX);
    seq(|xs|, i requires 0 <= i < |xs| => After(WEAKNESS_PREFIX + xs[i], 0.65, RESISTANCE_PREFIX + xs[i]))
  }

  function RaceNames(rs: seq<Race>): (ns: seq<string>)
    ensures |ns| == |rs|
    ensures forall i :: 0 <= i < |rs| ==> ns[i] == rs[i].name
  {
    seq(|rs|, i requires 0 <= i < |rs| => rs[i].name)
  }

  const BREATH_WEAPONS: seq<Trait> := Family(BREATH_PREFIX, 0.01, ELEMENTS)
  const RESISTANCES: seq<Trait> := Family(RESISTANCE_PREFIX, 0.05, ELEMENTS)
  const WEAKNESSES: seq<Trait> := Weaknesses(ELEMENTS)
  const DIVERSIFY_RACES: seq<Trait> := Family(DIVERSIFY_PREFIX, 0.15, RaceNames(RACES))

  const BOONS_HEAD: seq<Trait> := [
    Plain("Stretchy", 1.0), Plain("Milkers", 1.0), Plain("Survivalist", 1.0),
    Plain("No Waste", 1.0), Plain("Morning Glory", 1.0), Plain("Ready to Rumble", 1.0),
    Plain("Gender Fluid", 1.0), Plain("Fashionista", 1.0), Plain("Natural Weapons", 1.0),
    Plain("Early Bloomer", 0.45), Plain("Amphibian", 0.25), Plain("Linguist", 0.4),
    Plain("Planned Parenthood", 1.0), Plain("Endurance", 1.0), Plain("Flexible", 1.0),
    Plain("Scale Shed", 1.0), Plain("Wings", 0.07), Plain("Quick Learners", 1.0),
    Plain("Brave Little Kobolds", 1.0), Plain("Regrow", 1.0), Plain("Slimy Perspiration", 0.15),
    Trait("Sudden Evolution", Some(0.001), Some(0.0001), None, None, false),
    Plain("Technobold", 0.1), Plain("Burrower", 1.0),
    Plain("Strength Up", 0.2), Plain("Dexterity Up", 0.2), Plain("Constitution Up", 0.2),
    Plain("Intelligence Up", 0.2), Plain("Wisdom Up", 0.2), Plain("Charisma Up", 0.2),
    Plain("Mercy Magnet", 1.0), Plain("Magic Attunement", 0.05), Plain("Fellow Monster Friend", 1.0),
    Plain("Superior Dragon Genes", 1.0), Plain("Double Event", 0.5), Plain("Modular", 1.0)
  ]

  const BOONS_MIDDLE: seq<Trait> := [
    Plain("Synchronous Element", 1.0), Plain("Gem Horns", 0.03), Plain("Hidden Talent", 0.2),
    After("Chameleonic Scales", 0.15, "Elemental Resistance: *")
  ]

  const BOONS_TAIL: seq<Trait> := [
    Plain("Metal Scales", 0.25), Plain("Shapeshifting", 0.1), Plain("Conveniently Sized", 0.1),
    Plain("Mutagenic Evolution", 0.05), Plain("Symbiotic Ally", 1.0), Plain("Pack Tactics", 1.0),
    Plain("Man's Best Friend", 1.0), Plain("Hybridize", 1.0), Plain("Champion", 0.001)
  ]

  /** The `boons` table. */
  const BOONS: seq<Trait> :=
    BOONS_HEAD + BREATH_WEAPONS + RESISTANCES + BOONS_MIDDLE + DIVERSIFY_RACES + BOONS_TAIL

  const DRAWBACKS_HEAD: seq<Trait> := [
    Plain("Clumsy", 0.4), Plain("Bioluminescence", 0.4), Plain("Lustful", 1.0),
    Plain("Scales Are Enough", 1.0), Plain("Carnivore", 1.0), Plain("Herbivore", 1.0),
    Plain("Lightweight", 1.0), Plain("Rumor Rationalization", 1.0), Plain("Cowardly Kobolds", 1.0),
    Plain("High Metabolism", 0.35), Plain("Long Childhood", 0.45), Plain("Gullible", 1.0),
    Plain("Subservient", 0.8), After("Dominant", 0.8, "Subservient"), Plain("Mating Season", 1.0),
    Plain("Dry Spell", 1.0), Plain("Codependent", 1.0), Plain("Zero Potential", 0.01),
    Plain("Hibernate", 1.0), Plain("Coldblooded", 1.0), Plain("Foul", 0.45),
    Plain("Kleptomaniac", 0.65), Plain("Curious", 1.0), Plain("Off Switch", 1.0),
    After("Strength Down", 0.2, "Strength Up"), After("Dexterity Down", 0.2, "Dexterity Up"),
    After("Constitution Down", 0.2, "Constitution Up"), After("Intelligence Down", 0.2, "Intelligence Up"),
    After("Wisdom Down", 0.2, "Wisdom Up"), After("Charisma Down", 0.2, "Charisma Up"),
    Plain("Trouble Magnet", 1.0), Plain("Sun Allergy", 1.0), After("Technophobe", 0.45, "Technobold"),
    Plain("Inferior Kobold Genes", 1.0), Plain("Food Chain Newcomer", 1.0), Plain("Sustenance", 1.0)
  ]

  const DRAWBACKS_TAIL: seq<Trait> := [
    Plain("Mute", 0.35), Plain("Tasty Meal", 1.0), Plain("Tribal Schism", 1.0),
    Plain("Not-So-Immune System", 1.0), Plain("Flawed Recessive Genes", 1.0), Plain("Hypnosis Prone", 1.0),
    Plain("Magic Word", 1.0), Plain("Rival Race", 1.0), Plain("Chaotic Soul", 1.0),
    Plain("Magic Weakness", 1.0), Plain("Lycanthropy", 0.005), Plain("Game of Scales", 1.0),
    Plain("Selective Infertility", 1.0), Plain("Low Life Expectancy", 1.0)
  ]

  /** The `drawbacks` table. */
  const DRAWBACKS: seq<Trait> := DRAWBACKS_HEAD + WEAKNESSES + DRAWBACKS_TAIL
}

/** Facts about the tables that the hooks and the twin controller rely on. */
module DataFacts {
  import opened Traits
  import opened Data

  /** Every race has a positive twin quota. */
  lemma RaceQuotasPositive()
    ensures forall i | 0 <= i < |RACES| :: RACES[i].startingKobolds > 0
  {
  }

  /** No two races share a name. */
  lemma RaceNamesDistinct()
    ensures forall i, j | 0 <= i < j < |RACES| :: RACES[i].name != RACES[j].name
  {
  }

  /** Every name of a generated family starts with its prefix. */
  lemma FamilyNames(prefix: string, p: real, xs: seq<string>)
    ensures forall n | n in NameSet(Family(prefix, p, xs)) :: prefix <= n
  {
  }

  lemma BoonParts()
    ensures NameSet(BOONS) == NameSet(BOONS_HEAD) + NameSet(BREATH_WEAPONS) + NameSet(RESISTANCES)
      + NameSet(BOONS_MIDDLE) + NameSet(DIVERSIFY_RACES) + NameSet(BOONS_TAIL)
  {
    NameSetConcat(BOONS_HEAD + BREATH_WEAPONS + RESISTANCES + BOONS_MIDDLE + DIVERSIFY_RACES, BOONS_TAIL);
    NameSetConcat(BOONS_HEAD + BREATH_WEAPONS + RESISTANCES + BOONS_MIDDLE, DIVERSIFY_RACES);
    NameSetConcat(BOONS_HEAD + BREATH_WEAPONS + RESISTANCES, BOONS_MIDDLE);
    NameSetConcat(BOONS_HEAD + BREATH_WEAPONS, RESISTANCES);
    NameSetConcat(BOONS_HEAD, BREATH_WEAPONS);
  }

  /** Every drawback named "Elemental Weakness: X" is rolled after
      "Elemental Resistance: X", a boon. */
  lemma WeaknessesFollowResistances()
    ensures forall i | 0 <= i < |DRAWBACKS| && WEAKNESS_PREFIX <= DRAWBACKS[i].name ::
      DRAWBACKS[i].rolledAfter == Some(RESISTANCE_PREFIX + DRAWBACKS[i].name[|WEAKNESS_PREFIX|..])
      && RESISTANCE_PREFIX + DRAWBACKS[i].name[|WEAKNESS_PREFIX|..] in NameSet(BOONS)
  {
    forall i | 0 <= i < |DRAWBACKS| && WEAKNESS_PREFIX <= DRAWBACKS[i].name
      ensures DRAWBACKS[i].rolledAfter == Some(RESISTANCE_PREFIX + DRAWBACKS[i].name[|WEAKNESS_PREFIX|..])
      ensures RESISTANCE_PREFIX + DRAWBACKS[i].name[|WEAKNESS_PREFIX|..] in NameSet(BOONS)
    {
      WeaknessAt(i);
    }
  }

  lemma WeaknessAt(i: nat)
    requires i < |DRAWBACKS| && WEAKNESS_PREFIX <= DRAWBACKS[i].name
    ensures DRAWBACKS[i].rolledAfter == Some(RESISTANCE_PREFIX + DRAWBACKS[i].name[|WEAKNESS_PREFIX|..])
    ensures RESISTANCE_PREFIX + DRAWBACKS[i].name[|WEAKNESS_PREFIX|..] in NameSet(BOONS)
  {
    var h := |DRAWBACKS_HEAD|;
    if i < h {
      assert DRAWBACKS[i] == DRAWBACKS_HEAD[i];
      HeadNotWeakness(i);
    } else if i < h + |WEAKNESSES| {
      var e := i - h;
      assert DRAWBACKS[i] == WEAKNESSES[e];
      assert DRAWBACKS[i].name[|WEAKNESS_PREFIX|..] == ELEMENTS[e];
      BoonParts();
      assert RESISTANCES[e].name == RESISTANCE_PREFIX + ELEMENTS[e];
    } else {
      assert DRAWBACKS[i] == DRAWBACKS_TAIL[i - h - |WEAKNESSES|];
      TailNotWeakness(i - h - |WEAKNESSES|);
    }
  }

  lemma NotWeaknessName(n: string)
    requires |n| > 0 && n[0] != 'E'
    ensures !(WEAKNESS_PREFIX <= n)
  {
    assert WEAKNESS_PREFIX[0] == 'E';
  }

  lemma HeadNotWeakness(j: nat)
    requires j < |DRAWBACKS_HEAD|
    ensures !(WEAKNESS_PREFIX <= DRAWBACKS_HEAD[j].name)
  {
    HeadInitials(j);
    NotWeaknessName(DRAWBACKS_HEAD[j].name);
  }

  lemma HeadInitials(j: nat)
    requires j < |DRAWBACKS_HEAD|
    ensures |DRAWBACKS_HEAD[j].name| > 0 && DRAWBACKS_HEAD[j].name[0] != 'E'
  {
    assert forall k | 0 <= k < |DRAWBACKS_HEAD| :: |DRAWBACKS_HEAD[k].name| > 0 && DRAWBACKS_HEAD[k].name[0] != 'E';
  }

  lemma TailNotWeakness(j: nat)
    requires j < |DRAWBACKS_TAIL|
    ensures !(WEAKNESS_PREFIX <= DRAWBACKS_TAIL[j].name)
  {
    TailInitials(j);
    NotWeaknessName(DRAWBACKS_TAIL[j].name);
  }

  lemma TailInitials(j: nat)
    requires j < |DRAWBACKS_TAIL|
    ensures |DRAWBACKS_TAIL[j].name| > 0 && DRAWBACKS_TAIL[j].name[0] != 'E'
  {
    assert forall k | 0 <= k < |DRAWBACKS_TAIL| :: |DRAWBACKS_TAIL[k].name| > 0 && DRAWBACKS_TAIL[k].name[0] != 'E';
  }

  /** The boon is "Early Bloomer"; no boon is named "Early Bloomers". */
  lemma EarlyBloomersIsNoBoon()
    ensures "Early Bloomers" !in NameSet(BOONS) && "Early Bloomer" in NameSet(BOONS)
  {
    var x := "Early Bloomers";
    EarlyBloomerIsBoon();
    BoonParts();
    LiteralBoonsNotNamed(x);
    FamiliesNotNamed(x);
  }

  lemma FamiliesNotNamed(x: string)
    requires x == "Early Bloomers"
    ensures x !in NameSet(BREATH_WEAPONS) && x !in NameSet(RESISTANCES) && x !in NameSet(DIVERSIFY_RACES)
  {
    NoFamilyPrefix(x);
    FamilyNames(BREATH_PREFIX, 0.01, ELEMENTS);
    FamilyNames(RESISTANCE_PREFIX, 0.05, ELEMENTS);
    FamilyNames(DIVERSIFY_PREFIX, 0.15, RaceNames(RACES));
  }

  lemma EarlyBloomerIsBoon()
    ensures "Early Bloomer" in NameSet(BOONS)
  {
    BoonParts();
    HeadHasEarlyBloomer();
  }

  lemma HeadHasEarlyBloomer()
    ensures "Early Bloomer" in NameSet(BOONS_HEAD)
  {
    assert BOONS_HEAD[9].name == "Early Bloomer";
  }

  lemma NoFamilyPrefix(x: string)
    requires x == "Early Bloomers"
    ensures !(BREATH_PREFIX <= x) && !(RESISTANCE_PREFIX <= x) && !(DIVERSIFY_PREFIX <= x)
  {
    assert x[1] == 'a';
  }

  lemma LiteralBoonsNotNamed(x: string)
    requires x == "Early Bloomers"
    ensures x !in NameSet(BOONS_HEAD) && x !in NameSet(BOONS_MIDDLE) && x !in NameSet(BOONS_TAIL)
  {
    HeadNotNamed(x);
    assert forall j | 0 <= j < |BOONS_MIDDLE| :: BOONS_MIDDLE[j].name != x;
    assert forall j | 0 <= j < |BOONS_TAIL| :: BOONS_TAIL[j].name != x;
  }

  lemma HeadNotNamed(x: string)
    requires x == "Early Bloomers"
    ensures x !in NameSet(BOONS_HEAD)
  {
    assert forall j | 0 <= j < |BOONS_HEAD| :: BOONS_HEAD[j].name != x;
  }
}
