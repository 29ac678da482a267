/** The race modifier hooks of utils/data.js: in-place edits of a kobold's
    boon and drawback pools. A JavaScript trait object that a hook holds is
    identified here by its name: every object the hooks bias or guarantee is
    the first entry of its pool with that name, and between fetching it and
    editing it the hooks only append entries or remove entries of other
    names, so the two views agree. */
module RaceHooks {
  import opened Traits
  import opened Data

  // ---- list facts the hook specifications rest on ----

  /** The first entry named `m` sits at index `k`. */
  lemma FirstAt(s: seq<Trait>, m: string, k: nat)
    requires k < |s| && s[k].name == m
    requires forall j :: 0 <= j < k ==> s[j].name != m
    ensures IndexOfName(s, m) == Some(k) && FirstNamed(s, m) == Some(s[k])
  {
    var r := IndexOfName(s, m);
    assert m in NameSet(s);
    assert r.Some?;
    assert !(r.value < k) && !(k < r.value);
    FirstNamedIsIndexOf(s, m);
  }

  /** Appending keeps the entry a name finds, or makes the new entry the one
      found when the name was absent. */
  lemma FirstNamedAppend(s: seq<Trait>, x: Trait, m: string)
    ensures m in NameSet(s) ==> FirstNamed(s + [x], m) == FirstNamed(s, m)
    ensures m !in NameSet(s) && x.name == m ==> FirstNamed(s + [x], m) == Some(x)
    ensures m !in NameSet(s) && x.name != m ==> FirstNamed(s + [x], m) == None
    ensures NameSet(s + [x]) == NameSet(s) + {x.name}
  {
    var t := s + [x];
    assert forall j :: 0 <= j < |s| ==> t[j] == s[j];
    if m in NameSet(s) {
      var k := IndexOfName(s, m).value;
      FirstNamedIsIndexOf(s, m);
      FirstAt(t, m, k);
    } else if x.name == m {
      FirstAt(t, m, |s|);
    }
    NameSetSnoc(s, x);
  }

  /** Writing an entry of the same name over the first entry named `n`. */
  function SetFirst(s: seq<Trait>, n: string, u: Trait): (r: seq<Trait>)
    requires n in NameSet(s) && u.name == n
    ensures |r| == |s|
  {
    s[IndexOfName(s, n).value := u]
  }

  /** Every entry of `s` whose name is not in `touched` is still in `s'`. */
  ghost predicate KeepsOthers(s: seq<Trait>, s': seq<Trait>, touched: set<string>) {
    forall t | t in s && t.name !in touched :: t in s'
  }

  lemma SetFirstFacts(s: seq<Trait>, n: string, u: Trait, m: string)
    requires n in NameSet(s) && u.name == n
    ensures NameSet(SetFirst(s, n, u)) == NameSet(s)
    ensures FirstNamed(SetFirst(s, n, u), m) == if m == n then Some(u) else FirstNamed(s, m)
    ensures KeepsOthers(s, SetFirst(s, n, u), {n})
    ensures UniqueNames(s) ==> UniqueNames(SetFirst(s, n, u))
  {
    SetFirstShape(s, n, u);
    SetFirstFinds(s, n, u, m);
  }

  lemma SetFirstShape(s: seq<Trait>, n: string, u: Trait)
    requires n in NameSet(s) && u.name == n
    ensures NameSet(SetFirst(s, n, u)) == NameSet(s)
    ensures KeepsOthers(s, SetFirst(s, n, u), {n})
    ensures UniqueNames(s) ==> UniqueNames(SetFirst(s, n, u))
  {
    var i := IndexOfName(s, n).value;
    var r := SetFirst(s, n, u);
    assert forall j :: 0 <= j < |s| ==> r[j].name == s[j].name;
    assert NameSet(r) == NameSet(s) by {
      forall x | x in NameSet(s) ensures x in NameSet(r) {
        var j :| 0 <= j < |s| && s[j].name == x;
        assert r[j].name == x;
      }
    }
    forall t | t in s && t.name !in {n} ensures t in r {
      var j :| 0 <= j < |s| && s[j] == t;
      assert r[j] == t;
    }
  }

  lemma SetFirstFinds(s: seq<Trait>, n: string, u: Trait, m: string)
    requires n in NameSet(s) && u.name == n
    ensures FirstNamed(SetFirst(s, n, u), m) == if m == n then Some(u) else FirstNamed(s, m)
  {
    var i := IndexOfName(s, n).value;
    var r := SetFirst(s, n, u);
    assert forall j :: 0 <= j < |s| ==> r[j].name == s[j].name;
    if m == n {
      FirstAt(r, n, i);
    } else if m in NameSet(s) {
      var k := IndexOfName(s, m).value;
      FirstNamedIsIndexOf(s, m);
      FirstAt(r, m, k);
    }
  }

  // ---- the four helpers ----

  /** `Math.min(1, x)` */
  function MinOne(x: real): real {
    if x < 1.0 then x else 1.0
  }

  /** `ensureInSelection`: the entry already in the selection, or a copy of
      the source entry appended to it, or nothing. */
  function EnsureIn(sel: seq<Trait>, source: seq<Trait>, name: string): (r: (seq<Trait>, Option<Trait>))
    ensures sel <= r.0 && |r.0| <= |sel| + 1
    ensures r.1 == FirstNamed(r.0, name)
    ensures NameSet(r.0) == NameSet(sel) + (if name in NameSet(source) then {name} else {})
    ensures name in NameSet(sel) ==> r.0 == sel
    ensures name !in NameSet(sel) ==> r.1 == FirstNamed(source, name)
  {
    match FirstNamed(sel, name)
    case Some(item) => (sel, Some(item))
    case None =>
      match FirstNamed(source, name)
      case None => (sel, None)
      case Some(src) =>
        FirstNamedAppend(sel, src, name);
        (sel + [src], Some(src))
  }

  /** `removeFromSelection`: the first entry with that name goes, the others
      keep their order. */
  function RemoveNamed(items: seq<Trait>, name: string): (r: seq<Trait>)
    ensures name !in NameSet(items) ==> r == items
    ensures name in NameSet(items) ==>
      |r| == |items| - 1 && r == items[..IndexOfName(items, name).value] + items[IndexOfName(items, name).value + 1..]
  {
    match IndexOfName(items, name)
    case None => items
    case Some(i) => items[..i] + items[i + 1..]
  }

  /** `bias` on one trait: only a trait whose table probability is a number
      below 1 changes, and its override becomes its effective probability
      times the factor, capped at 1. */
  function BiasTrait(t: Trait, factor: real): (u: Trait)
    ensures u.name == t.name && u.prob == t.prob && u.prob2 == t.prob2
    ensures u.rolledAfter == t.rolledAfter && u.guaranteedByRace == t.guaranteedByRace
    ensures !(t.prob.Some? && t.prob.value < 1.0) ==> u == t
    ensures t.prob.Some? && t.prob.value < 1.0 ==>
      EffectiveProb(u) <= 1.0
      && (EffectiveProb(t) * factor < 1.0 ==> EffectiveProb(u) == EffectiveProb(t) * factor)
      && (EffectiveProb(t) * factor >= 1.0 ==> EffectiveProb(u) == 1.0)
    ensures factor >= 1.0 && 0.0 <= EffectiveProb(t) <= 1.0 ==> EffectiveProb(t) <= EffectiveProb(u) <= 1.0
  {
    if t.prob.Some? && t.prob.value < 1.0 then
      t.(biased := Some(MinOne(EffectiveProb(t) * factor)))
    else t
  }

  /** `guarantee` on one trait: pinned to probability 1 and marked. */
  function GuaranteeTrait(t: Trait): (u: Trait)
    ensures u.name == t.name && u.prob == t.prob && u.prob2 == t.prob2 && u.rolledAfter == t.rolledAfter
    ensures EffectiveProb(u) == 1.0 && u.guaranteedByRace
  {
    t.(biased := Some(1.0), guaranteedByRace := true)
  }

  /** `bias` on the entry a hook holds, found by its name; an absent name
      (`bias(undefined, …)`) changes nothing. */
  function BiasNamed(items: seq<Trait>, name: string, factor: real): seq<Trait> {
    match FirstNamed(items, name)
    case None => items
    case Some(t) => SetFirst(items, name, BiasTrait(t, factor))
  }

  /** `guarantee` on the entry a hook holds. The name must be present:
      `guarantee(undefined)` throws. */
  function GuaranteeNamed(items: seq<Trait>, name: string): seq<Trait>
    requires name in NameSet(items)
  {
    SetFirst(items, name, GuaranteeTrait(FirstNamed(items, name).value))
  }

  // ---- the six hooks as functions of the two pools ----

  /** The names of the literal parts of the tables are names of the tables. */
  lemma TableParts()
    ensures NameSet(BOONS_HEAD) <= NameSet(BOONS) && NameSet(BOONS_MIDDLE) <= NameSet(BOONS)
    ensures NameSet(BOONS_TAIL) <= NameSet(BOONS) && NameSet(DRAWBACKS_HEAD) <= NameSet(DRAWBACKS)
  {
    NameSetConcat(BOONS_HEAD + BREATH_WEAPONS + RESISTANCES + BOONS_MIDDLE + DIVERSIFY_RACES, BOONS_TAIL);
    NameSetConcat(BOONS_HEAD + BREATH_WEAPONS + RESISTANCES + BOONS_MIDDLE, DIVERSIFY_RACES);
    NameSetConcat(BOONS_HEAD + BREATH_WEAPONS + RESISTANCES, BOONS_MIDDLE);
    NameSetConcat(BOONS_HEAD + BREATH_WEAPONS, RESISTANCES);
    NameSetConcat(BOONS_HEAD, BREATH_WEAPONS);
    NameSetConcat(DRAWBACKS_HEAD + WEAKNESSES, DRAWBACKS_TAIL);
    NameSetConcat(DRAWBACKS_HEAD, WEAKNESSES);
  }

  lemma BoonHeadNames()
    ensures "Charisma Up" in NameSet(BOONS_HEAD) && "Mercy Magnet" in NameSet(BOONS_HEAD)
    ensures "Intelligence Up" in NameSet(BOONS_HEAD) && "Milkers" in NameSet(BOONS_HEAD)
    ensures SUDDEN_EVOLUTION in NameSet(BOONS_HEAD) && "Wings" in NameSet(BOONS_HEAD)
    ensures "Dexterity Up" in NameSet(BOONS_HEAD) && "Magic Attunement" in NameSet(BOONS_HEAD)
    ensures "Modular" in NameSet(BOONS_HEAD) && "Wisdom Up" in NameSet(BOONS_HEAD)
  {
    assert BOONS_HEAD[1].name == "Milkers";
    assert BOONS_HEAD[16].name == "Wings";
    assert BOONS_HEAD[21].name == SUDDEN_EVOLUTION;
    assert BOONS_HEAD[25].name == "Dexterity Up";
    assert BOONS_HEAD[27].name == "Intelligence Up";
    assert BOONS_HEAD[28].name == "Wisdom Up";
    assert BOONS_HEAD[29].name == "Charisma Up";
    assert BOONS_HEAD[30].name == "Mercy Magnet";
    assert BOONS_HEAD[31].name == "Magic Attunement";
    assert BOONS_HEAD[35].name == "Modular";
  }

  lemma OtherTableNames()
    ensures "Hidden Talent" in NameSet(BOONS_MIDDLE)
    ensures "Pack Tactics" in NameSet(BOONS_TAIL) && "Man's Best Friend" in NameSet(BOONS_TAIL)
    ensures "Constitution Down" in NameSet(DRAWBACKS_HEAD) && "Strength Down" in NameSet(DRAWBACKS_HEAD)
    ensures "Long Childhood" in NameSet(DRAWBACKS_HEAD) && "Bioluminescence" in NameSet(DRAWBACKS_HEAD)
    ensures "Off Switch" in NameSet(DRAWBACKS_HEAD)
  {
    assert BOONS_MIDDLE[2].name == "Hidden Talent";
    assert BOONS_TAIL[5].name == "Pack Tactics";
    assert BOONS_TAIL[6].name == "Man's Best Friend";
    assert DRAWBACKS_HEAD[1].name == "Bioluminescence";
    assert DRAWBACKS_HEAD[10].name == "Long Childhood";
    assert DRAWBACKS_HEAD[23].name == "Off Switch";
    assert DRAWBACKS_HEAD[24].name == "Strength Down";
    assert DRAWBACKS_HEAD[26].name == "Constitution Down";
  }

  /** The two tables a hook reads: `BOONS` and `DRAWBACKS`. */
  datatype Tables = Tables(boons: seq<Trait>, drawbacks: seq<Trait>)

  /** The names each hook fetches from the tables are in them. */
  predicate CuteboldNames(tb: Tables) {
    "Charisma Up" in NameSet(tb.boons) && "Mercy Magnet" in NameSet(tb.boons) && "Constitution Down" in NameSet(tb.drawbacks)
  }

  predicate RoughboldNames(tb: Tables) {
    "Intelligence Up" in NameSet(tb.boons) && "Pack Tactics" in NameSet(tb.boons) && "Strength Down" in NameSet(tb.drawbacks)
  }

  predicate WereboldNames(tb: Tables) {
    && "Hidden Talent" in NameSet(tb.boons) && "Milkers" in NameSet(tb.boons) && SUDDEN_EVOLUTION in NameSet(tb.boons)
    && "Long Childhood" in NameSet(tb.drawbacks)
  }

  predicate FairyboldNames(tb: Tables) {
    && "Wings" in NameSet(tb.boons) && "Dexterity Up" in NameSet(tb.boons) && "Magic Attunement" in NameSet(tb.boons)
    && "Bioluminescence" in NameSet(tb.drawbacks)
  }

  predicate RoboldNames(tb: Tables) {
    "Modular" in NameSet(tb.boons) && "Off Switch" in NameSet(tb.drawbacks)
  }

  predicate DogboldNames(tb: Tables) {
    "Wisdom Up" in NameSet(tb.boons) && "Man's Best Friend" in NameSet(tb.boons)
  }

  /** Every name a hook fetches from the tables is in them. */
  predicate HookNames(tb: Tables) {
    && CuteboldNames(tb) && RoughboldNames(tb) && WereboldNames(tb)
    && FairyboldNames(tb) && RoboldNames(tb) && DogboldNames(tb)
  }

  /** The tables of utils/data.js hold every name a hook fetches. */
  lemma TableNames()
    ensures HookNames(Tables(BOONS, DRAWBACKS))
  {
    TableParts();
    BoonHeadNames();
    OtherTableNames();
  }

  /** `applyCuteboldTraits` */
  function CuteboldTraits(tb: Tables, b: seq<Trait>, d: seq<Trait>): (seq<Trait>, seq<Trait>)
    requires CuteboldNames(tb)
  {
    var b1 := EnsureIn(b, tb.boons, "Charisma Up").0;
    var d1 := EnsureIn(d, tb.drawbacks, "Constitution Down").0;
    var b2 := EnsureIn(b1, tb.boons, "Mercy Magnet").0;
    var b3 := BiasNamed(b2, "Charisma Up", 2.0);
    var d2 := BiasNamed(d1, "Constitution Down", 2.0);
    SetFirstNames(b2, "Charisma Up", 2.0);
    (GuaranteeNamed(b3, "Mercy Magnet"), d2)
  }

  /** `applyRoughboldTraits` */
  function RoughboldTraits(tb: Tables, b: seq<Trait>, d: seq<Trait>): (seq<Trait>, seq<Trait>)
    requires RoughboldNames(tb)
  {
    var b1 := EnsureIn(b, tb.boons, "Intelligence Up").0;
    var d1 := EnsureIn(d, tb.drawbacks, "Strength Down").0;
    var b2 := EnsureIn(b1, tb.boons, "Pack Tactics").0;
    var b3 := BiasNamed(b2, "Intelligence Up", 2.0);
    var d2 := BiasNamed(d1, "Strength Down", 2.0);
    SetFirstNames(b2, "Intelligence Up", 2.0);
    (GuaranteeNamed(b3, "Pack Tactics"), d2)
  }

  /** `applyWereboldTraits`, whose removal of "Early Bloomers" names no table
      entry (the boon is "Early Bloomer"). */
  function WereboldTraits(tb: Tables, b: seq<Trait>, d: seq<Trait>): (seq<Trait>, seq<Trait>)
    requires WereboldNames(tb)
  {
    var b1 := EnsureIn(b, tb.boons, "Hidden Talent").0;
    var b2 := EnsureIn(b1, tb.boons, "Milkers").0;
    var d1 := EnsureIn(d, tb.drawbacks, "Long Childhood").0;
    var b3 := RemoveNamed(b2, "Early Bloomers");
    RemoveKeepsOthers(b2, "Early Bloomers", "Milkers");
    var b4 := EnsureIn(b3, tb.boons, SUDDEN_EVOLUTION).0;
    var b5 := BiasNamed(b4, "Hidden Talent", 2.0);
    SetFirstNames(b4, "Hidden Talent", 2.0);
    (GuaranteeNamed(b5, "Milkers"), GuaranteeNamed(d1, "Long Childhood"))
  }

  /** `applyFairyboldTraits` */
  function FairyboldTraits(tb: Tables, b: seq<Trait>, d: seq<Trait>): (seq<Trait>, seq<Trait>)
    requires FairyboldNames(tb)
  {
    var b1 := EnsureIn(b, tb.boons, "Wings").0;
    var b2 := EnsureIn(b1, tb.boons, "Dexterity Up").0;
    var b3 := EnsureIn(b2, tb.boons, "Magic Attunement").0;
    var d1 := EnsureIn(d, tb.drawbacks, "Bioluminescence").0;
    var b4 := GuaranteeNamed(b3, "Wings");
    GuaranteeNames(b3, "Wings");
    var b5 := GuaranteeNamed(b4, "Dexterity Up");
    GuaranteeNames(b4, "Dexterity Up");
    (GuaranteeNamed(b5, "Magic Attunement"), GuaranteeNamed(d1, "Bioluminescence"))
  }

  /** `applyRoboldTraits` */
  function RoboldTraits(tb: Tables, b: seq<Trait>, d: seq<Trait>): (seq<Trait>, seq<Trait>)
    requires RoboldNames(tb)
  {
    var b1 := RemoveNamed(b, "Early Bloomers");
    var d1 := RemoveNamed(d, "Long Childhood");
    var b2 := EnsureIn(b1, tb.boons, "Modular").0;
    var d2 := EnsureIn(d1, tb.drawbacks, "Off Switch").0;
    (GuaranteeNamed(b2, "Modular"), GuaranteeNamed(d2, "Off Switch"))
  }

  /** `applyDogboldTraits` */
  function DogboldTraits(tb: Tables, b: seq<Trait>, d: seq<Trait>): (seq<Trait>, seq<Trait>)
    requires DogboldNames(tb)
  {
    var b1 := EnsureIn(b, tb.boons, "Wisdom Up").0;
    var b2 := EnsureIn(b1, tb.boons, "Man's Best Friend").0;
    var b3 := BiasNamed(b2, "Wisdom Up", 2.0);
    SetFirstNames(b2, "Wisdom Up", 2.0);
    (GuaranteeNamed(b3, "Man's Best Friend"), d)
  }

  /** `race.applyTraits(...)` */
  function ApplyTraits(h: Hook, b: seq<Trait>, d: seq<Trait>): (seq<Trait>, seq<Trait>) {
    TableNames();
    var tb := Tables(BOONS, DRAWBACKS);
    match h
    case CuteboldHook => CuteboldTraits(tb, b, d)
    case RoughboldHook => RoughboldTraits(tb, b, d)
    case WereboldHook => WereboldTraits(tb, b, d)
    case FairyboldHook => FairyboldTraits(tb, b, d)
    case RoboldHook => RoboldTraits(tb, b, d)
    case DogboldHook => DogboldTraits(tb, b, d)
  }

  /** Biasing one name keeps every name of the pool. */
  lemma SetFirstNames(s: seq<Trait>, n: string, factor: real)
    ensures NameSet(BiasNamed(s, n, factor)) == NameSet(s)
  {
    if n in NameSet(s) {
      SetFirstFacts(s, n, BiasTrait(FirstNamed(s, n).value, factor), n);
    }
  }

  /** Guaranteeing one name keeps every name of the pool. */
  lemma GuaranteeNames(s: seq<Trait>, n: string)
    requires n in NameSet(s)
    ensures NameSet(GuaranteeNamed(s, n)) == NameSet(s)
  {
    SetFirstFacts(s, n, GuaranteeTrait(FirstNamed(s, n).value), n);
  }

  /** Removing one name keeps every entry of another name, and the entry
      another name finds. */
  lemma RemoveKeepsOthers(s: seq<Trait>, n: string, m: string)
    requires m != n
    ensures m in NameSet(RemoveNamed(s, n)) <==> m in NameSet(s)
    ensures FirstNamed(RemoveNamed(s, n), m) == FirstNamed(s, m)
    ensures KeepsOthers(s, RemoveNamed(s, n), {n})
  {
    RemoveKeepsEntries(s, n);
    RemoveFinds(s, n, m);
  }

  lemma RemoveKeepsEntries(s: seq<Trait>, n: string)
    ensures KeepsOthers(s, RemoveNamed(s, n), {n})
  {
    if n in NameSet(s) {
      var i := IndexOfName(s, n).value;
      var r := RemoveNamed(s, n);
      forall t | t in s && t.name !in {n} ensures t in r {
        var j :| 0 <= j < |s| && s[j] == t;
        if j < i { assert r[j] == t; } else { assert j != i; assert r[j - 1] == t; }
      }
    }
  }

  lemma RemoveFinds(s: seq<Trait>, n: string, m: string)
    requires m != n
    ensures m in NameSet(RemoveNamed(s, n)) <==> m in NameSet(s)
    ensures FirstNamed(RemoveNamed(s, n), m) == FirstNamed(s, m)
  {
    if n in NameSet(s) {
      if m in NameSet(s) {
        RemoveFindsPresent(s, n, m);
      } else {
        RemoveFindsAbsent(s, n, m);
      }
    }
  }

  lemma RemoveFindsPresent(s: seq<Trait>, n: string, m: string)
    requires m != n && n in NameSet(s) && m in NameSet(s)
    ensures FirstNamed(RemoveNamed(s, n), m) == FirstNamed(s, m)
  {
    var i := IndexOfName(s, n).value;
    var k := IndexOfName(s, m).value;
    assert s[i].name == n && s[k].name == m;
    FirstNamedIsIndexOf(s, m);
    assert FirstNamed(s, m) == Some(s[k]);
    assert RemoveNamed(s, n) == s[..i] + s[i + 1..];
    RemoveAt(s, i, k, m);
  }

  /** Removing the entry at `i` from `s` moves the first entry named `m`,
      at `k != i`, to `k` or `k - 1`. */
  lemma RemoveAt(s: seq<Trait>, i: nat, k: nat, m: string)
    requires i < |s| && k < |s| && i != k && s[k].name == m
    requires forall j :: 0 <= j < k ==> s[j].name != m
    ensures FirstNamed(s[..i] + s[i + 1..], m) == Some(s[k])
  {
    var r := s[..i] + s[i + 1..];
    assert forall j :: 0 <= j < i ==> r[j] == s[j];
    assert forall j :: i <= j < |r| ==> r[j] == s[j + 1];
    if k < i {
      FirstAt(r, m, k);
    } else {
      FirstAt(r, m, k - 1);
    }
  }

  lemma RemoveFindsAbsent(s: seq<Trait>, n: string, m: string)
    requires m != n && n in NameSet(s) && m !in NameSet(s)
    ensures m !in NameSet(RemoveNamed(s, n))
  {
  }

  // ---- the in-place form ----

  /** A per-kobold pool (`selectedBoons` or `selectedDrawbacks`), an array
      the hooks edit in place. */
  class Selection {
    var items: seq<Trait>

    constructor (items: seq<Trait>)
      ensures this.items == items
    {
      this.items := items;
    }

    /** `ensureInSelection(this, source, name)` */
    method EnsureInSelection(source: seq<Trait>, name: string) returns (item: Option<Trait>)
      modifies this
      ensures (items, item) == EnsureIn(old(items), source, name)
    {
      item := FirstNamed(items, name);
      if item.None? {
        var src := FirstNamed(source, name);
        if src.Some? {
          item := src;
          items := items + [src.value];
        }
      }
    }

    /** `removeFromSelection(this, name)` */
    method RemoveFromSelection(name: string)
      modifies this
      ensures items == RemoveNamed(old(items), name)
    {
      var index := IndexOfName(items, name);
      if index.Some? {
        items := items[..index.value] + items[index.value + 1..];
      }
    }

    /** `bias(item, factor)` where `item` is this selection's entry of its
      name, or undefined. */
    method Bias(item: Option<Trait>, factor: real)
      requires item.Some? ==> FirstNamed(items, item.value.name) == item
      modifies this
      ensures items == if item.Some? then BiasNamed(old(items), item.value.name, factor) else old(items)
    {
      if item.Some? {
        var t := item.value;
        FirstNamedIsIndexOf(items, t.name);
        var i := IndexOfName(items, t.name).value;
        assert items[i] == t;
        items := items[i := BiasTrait(t, factor)];
      }
    }

    /** `guarantee(item)` where `item` is this selection's entry of its name. */
    method Guarantee(item: Option<Trait>)
      requires item.Some? && FirstNamed(items, item.value.name) == item
      modifies this
      ensures items == GuaranteeNamed(old(items), item.value.name)
    {
      var i := IndexOfName(items, item.value.name).value;
      items := items[i := item.value.(biased := Some(1.0), guaranteedByRace := true)];
    }
  }

  method ApplyCuteboldTraits(tb: Tables, boons: Selection, drawbacks: Selection)
    requires CuteboldNames(tb) && boons != drawbacks
    modifies boons, drawbacks
    ensures (boons.items, drawbacks.items) == CuteboldTraits(tb, old(boons.items), old(drawbacks.items))
  {
    var charismaUp := boons.EnsureInSelection(tb.boons, "Charisma Up");
    var constitutionDown := drawbacks.EnsureInSelection(tb.drawbacks, "Constitution Down");
    ghost var b1 := boons.items;
    var mercyMagnet := boons.EnsureInSelection(tb.boons, "Mercy Magnet");
    FirstNamedAppendOrSame(b1, boons.items, "Charisma Up");
    ghost var b2 := boons.items;
    boons.Bias(charismaUp, 2.0);
    drawbacks.Bias(constitutionDown, 2.0);
    BiasKeepsOther(b2, "Charisma Up", 2.0, "Mercy Magnet");
    boons.Guarantee(mercyMagnet);
  }

  method ApplyRoughboldTraits(tb: Tables, boons: Selection, drawbacks: Selection)
    requires RoughboldNames(tb) && boons != drawbacks
    modifies boons, drawbacks
    ensures (boons.items, drawbacks.items) == RoughboldTraits(tb, old(boons.items), old(drawbacks.items))
  {
    var intelligenceUp := boons.EnsureInSelection(tb.boons, "Intelligence Up");
    var strengthDown := drawbacks.EnsureInSelection(tb.drawbacks, "Strength Down");
    ghost var b1 := boons.items;
    var packTactics := boons.EnsureInSelection(tb.boons, "Pack Tactics");
    FirstNamedAppendOrSame(b1, boons.items, "Intelligence Up");
    ghost var b2 := boons.items;
    boons.Bias(intelligenceUp, 2.0);
    drawbacks.Bias(strengthDown, 2.0);
    BiasKeepsOther(b2, "Intelligence Up", 2.0, "Pack Tactics");
    boons.Guarantee(packTactics);
  }

  method ApplyWereboldTraits(tb: Tables, boons: Selection, drawbacks: Selection)
    requires WereboldNames(tb) && boons != drawbacks
    modifies boons, drawbacks
    ensures (boons.items, drawbacks.items) == WereboldTraits(tb, old(boons.items), old(drawbacks.items))
  {
    var hiddenTalent := boons.EnsureInSelection(tb.boons, "Hidden Talent");
    ghost var b1 := boons.items;
    var milkers := boons.EnsureInSelection(tb.boons, "Milkers");
    FirstNamedAppendOrSame(b1, boons.items, "Hidden Talent");
    var longChildhood := drawbacks.EnsureInSelection(tb.drawbacks, "Long Childhood");
    ghost var b2 := boons.items;
    boons.RemoveFromSelection("Early Bloomers");
    RemoveKeepsOthers(b2, "Early Bloomers", "Hidden Talent");
    RemoveKeepsOthers(b2, "Early Bloomers", "Milkers");
    ghost var b3 := boons.items;
    var _ := boons.EnsureInSelection(tb.boons, SUDDEN_EVOLUTION);
    FirstNamedAppendOrSame(b3, boons.items, "Hidden Talent");
    FirstNamedAppendOrSame(b3, boons.items, "Milkers");
    ghost var b4 := boons.items;
    boons.Bias(hiddenTalent, 2.0);
    BiasKeepsOther(b4, "Hidden Talent", 2.0, "Milkers");
    boons.Guarantee(milkers);
    drawbacks.Guarantee(longChildhood);
  }

  method ApplyFairyboldTraits(tb: Tables, boons: Selection, drawbacks: Selection)
    requires FairyboldNames(tb) && boons != drawbacks
    modifies boons, drawbacks
    ensures (boons.items, drawbacks.items) == FairyboldTraits(tb, old(boons.items), old(drawbacks.items))
  {
    var wings := boons.EnsureInSelection(tb.boons, "Wings");
    ghost var b1 := boons.items;
    var dexterityUp := boons.EnsureInSelection(tb.boons, "Dexterity Up");
    FirstNamedAppendOrSame(b1, boons.items, "Wings");
    ghost var b2 := boons.items;
    var magicAttunement := boons.EnsureInSelection(tb.boons, "Magic Attunement");
    FirstNamedAppendOrSame(b2, boons.items, "Wings");
    FirstNamedAppendOrSame(b2, boons.items, "Dexterity Up");
    var bioluminescence := drawbacks.EnsureInSelection(tb.drawbacks, "Bioluminescence");
    ghost var b3 := boons.items;
    boons.Guarantee(wings);
    GuaranteeKeepsOther(b3, "Wings", "Dexterity Up");
    GuaranteeKeepsOther(b3, "Wings", "Magic Attunement");
    ghost var b4 := boons.items;
    boons.Guarantee(dexterityUp);
    GuaranteeKeepsOther(b4, "Dexterity Up", "Magic Attunement");
    boons.Guarantee(magicAttunement);
    drawbacks.Guarantee(bioluminescence);
  }

  method ApplyRoboldTraits(tb: Tables, boons: Selection, drawbacks: Selection)
    requires RoboldNames(tb) && boons != drawbacks
    modifies boons, drawbacks
    ensures (boons.items, drawbacks.items) == RoboldTraits(tb, old(boons.items), old(drawbacks.items))
  {
    boons.RemoveFromSelection("Early Bloomers");
    drawbacks.RemoveFromSelection("Long Childhood");
    var modular := boons.EnsureInSelection(tb.boons, "Modular");
    var offSwitch := drawbacks.EnsureInSelection(tb.drawbacks, "Off Switch");
    boons.Guarantee(modular);
    drawbacks.Guarantee(offSwitch);
  }

  method ApplyDogboldTraits(tb: Tables, boons: Selection, drawbacks: Selection)
    requires DogboldNames(tb) && boons != drawbacks
    modifies boons, drawbacks
    ensures (boons.items, drawbacks.items) == DogboldTraits(tb, old(boons.items), old(drawbacks.items))
  {
    var wisdomUp := boons.EnsureInSelection(tb.boons, "Wisdom Up");
    ghost var b1 := boons.items;
    var mansBestFriend := boons.EnsureInSelection(tb.boons, "Man's Best Friend");
    FirstNamedAppendOrSame(b1, boons.items, "Wisdom Up");
    ghost var b2 := boons.items;
    boons.Bias(wisdomUp, 2.0);
    BiasKeepsOther(b2, "Wisdom Up", 2.0, "Man's Best Friend");
    boons.Guarantee(mansBestFriend);
  }

  /** `race?.applyTraits?.(...)` on the two pools. */
  method ApplyRaceTraits(h: Hook, boons: Selection, drawbacks: Selection)
    requires boons != drawbacks
    modifies boons, drawbacks
    ensures (boons.items, drawbacks.items) == ApplyTraits(h, old(boons.items), old(drawbacks.items))
  {
    TableNames();
    var tb := Tables(BOONS, DRAWBACKS);
    match h
    case CuteboldHook => ApplyCuteboldTraits(tb, boons, drawbacks);
    case RoughboldHook => ApplyRoughboldTraits(tb, boons, drawbacks);
    case WereboldHook => ApplyWereboldTraits(tb, boons, drawbacks);
    case FairyboldHook => ApplyFairyboldTraits(tb, boons, drawbacks);
    case RoboldHook => ApplyRoboldTraits(tb, boons, drawbacks);
    case DogboldHook => ApplyDogboldTraits(tb, boons, drawbacks);
  }

  /** A list that only grew at its end, or stayed, finds the same entry for a
      name it already held. */
  lemma FirstNamedAppendOrSame(s: seq<Trait>, t: seq<Trait>, m: string)
    requires m in NameSet(s) && s <= t && |t| <= |s| + 1
    ensures FirstNamed(t, m) == FirstNamed(s, m) && m in NameSet(t)
  {
    if |t| == |s| + 1 {
      PrefixSnoc(s, t);
      FirstNamedAppend(s, t[|s|], m);
    } else {
      assert t == s;
    }
  }

  lemma BiasKeepsOther(s: seq<Trait>, n: string, factor: real, m: string)
    requires m != n
    ensures FirstNamed(BiasNamed(s, n, factor), m) == FirstNamed(s, m)
  {
    if n in NameSet(s) {
      SetFirstFacts(s, n, BiasTrait(FirstNamed(s, n).value, factor), m);
    }
  }

  lemma GuaranteeKeepsOther(s: seq<Trait>, n: string, m: string)
    requires m != n && n in NameSet(s)
    ensures FirstNamed(GuaranteeNamed(s, n), m) == FirstNamed(s, m)
  {
    SetFirstFacts(s, n, GuaranteeTrait(FirstNamed(s, n).value), m);
  }
}
