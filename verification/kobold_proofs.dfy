/** What the per-kobold pipeline guarantees: pools with unique names all the
    way to `computeItems`, no "Double Event" for a twin, race-guaranteed
    traits that reach the result, and drawbacks voided by boons. */
module KoboldProofs {
  import opened Traits
  import opened Dependencies
  import opened ResolutionProofs
  import opened PostStages
  import opened Data
  import opened RaceHooks
  import opened RaceHookProofs
  import opened Halfboons
  import opened Calculator
  import opened CalculatorProofs
  import opened Renderer
  import opened Kobold

  /** The copies keep the names, so unique names stay unique. */
  lemma FreshPoolNames(selected: seq<Trait>)
    ensures NameSet(FreshPool(selected)) == NameSet(selected)
    ensures UniqueNames(selected) ==> UniqueNames(FreshPool(selected))
  {
    var pool := FreshPool(selected);
    forall x | x in NameSet(selected) ensures x in NameSet(pool) {
      var i :| 0 <= i < |selected| && selected[i].name == x;
      assert pool[i].name == x;
    }
  }

  /** Each name finds the copy of the entry it found before, with its bias
      cleared. */
  lemma {:induction false} FreshPoolFinds(selected: seq<Trait>, n: string)
    ensures FirstNamed(FreshPool(selected), n) ==
      match FirstNamed(selected, n) case Some(t) => Some(t.(biased := None)) case None => None
  {
    if selected != [] {
      FreshPoolFinds(selected[1..], n);
      var pool := FreshPool(selected);
      assert pool[0] == selected[0].(biased := None);
      assert pool[1..] == FreshPool(selected[1..]);
    }
  }

  /** The filter keeps exactly the entries of other names. */
  lemma {:induction false} WithoutMembers(items: seq<Trait>, name: string)
    ensures forall t :: t in Without(items, name) <==> t in items && t.name != name
  {
    if items != [] {
      WithoutMembers(items[1..], name);
      assert forall t :: t in items <==> t == items[0] || t in items[1..];
    }
  }

  /** The filter takes exactly that name out of the pool's names. */
  lemma WithoutNames(items: seq<Trait>, name: string)
    ensures NameSet(Without(items, name)) == NameSet(items) - {name}
  {
    WithoutMembers(items, name);
    var kept := Without(items, name);
    forall x | x in NameSet(items) - {name} ensures x in NameSet(kept) {
      var i :| 0 <= i < |items| && items[i].name == x;
      assert items[i] in items;
    }
    forall x | x in NameSet(kept) ensures x in NameSet(items) - {name} {
      var i :| 0 <= i < |kept| && kept[i].name == x;
      assert kept[i] in kept;
    }
  }

  /** The filter keeps unique names unique. */
  lemma {:induction false} WithoutUnique(items: seq<Trait>, name: string)
    requires UniqueNames(items)
    ensures UniqueNames(Without(items, name))
  {
    if items != [] {
      assert UniqueNames(items[1..]);
      WithoutUnique(items[1..], name);
      var rest := Without(items[1..], name);
      var kept := Without(items, name);
      if items[0].name != name {
        assert kept == [items[0]] + rest;
        WithoutNames(items[1..], name);
        assert items[0].name !in NameSet(items[1..]) by {
          forall j | 0 <= j < |items[1..]| ensures items[1..][j].name != items[0].name {
            assert items[1..][j] == items[j + 1];
          }
        }
        forall i, j | 0 <= i < j < |kept| ensures kept[i].name != kept[j].name {
          assert kept[j] == rest[j - 1];
          if i > 0 { assert kept[i] == rest[i - 1]; }
        }
      } else {
        assert kept == rest;
      }
    }
  }

  /** Every other name finds the same entry after the filter. */
  lemma {:induction false} WithoutFinds(items: seq<Trait>, name: string, m: string)
    requires m != name
    ensures FirstNamed(Without(items, name), m) == FirstNamed(items, m)
  {
    if items != [] {
      WithoutFinds(items[1..], name, m);
      var rest := Without(items[1..], name);
      var kept := Without(items, name);
      if items[0].name != name {
        assert kept == [items[0]] + rest;
        assert kept[0] == items[0] && kept[1..] == rest;
      } else {
        assert kept == rest;
      }
    }
  }

  /** A pool reached by adding other names holds `x` only if the start did.
      One lemma per number of added names keeps the name comparisons out of
      the set reasoning. */
  lemma NotAdded1(s0: seq<Trait>, s: seq<Trait>, a: string, removed: set<string>, x: string)
    requires Reached(s0, s, {a}, removed) && x != a
    ensures x in NameSet(s) ==> x in NameSet(s0)
  {
  }

  lemma NotAdded2(s0: seq<Trait>, s: seq<Trait>, a: string, b: string, removed: set<string>, x: string)
    requires Reached(s0, s, {a, b}, removed) && x != a && x != b
    ensures x in NameSet(s) ==> x in NameSet(s0)
  {
  }

  lemma NotAdded3(s0: seq<Trait>, s: seq<Trait>, a: string, b: string, c: string, removed: set<string>, x: string)
    requires Reached(s0, s, {a, b, c}, removed) && x != a && x != b && x != c
    ensures x in NameSet(s) ==> x in NameSet(s0)
  {
  }

  /** No hook adds a boon named "Double Event". */
  lemma AddedNames()
    ensures DOUBLE_EVENT != "Charisma Up" && DOUBLE_EVENT != "Mercy Magnet"
    ensures DOUBLE_EVENT != "Intelligence Up" && DOUBLE_EVENT != "Pack Tactics"
    ensures DOUBLE_EVENT != "Hidden Talent" && DOUBLE_EVENT != "Milkers" && DOUBLE_EVENT != SUDDEN_EVOLUTION
    ensures DOUBLE_EVENT != "Wings" && DOUBLE_EVENT != "Dexterity Up" && DOUBLE_EVENT != "Magic Attunement"
    ensures DOUBLE_EVENT != "Modular"
    ensures DOUBLE_EVENT != "Wisdom Up" && DOUBLE_EVENT != "Man's Best Friend"
  {
  }

  /** What the hooks keep of two pools with unique names: unique names, and
      no "Double Event" that was not there before. */
  ghost predicate HookKeeps(b: seq<Trait>, d: seq<Trait>, out: (seq<Trait>, seq<Trait>)) {
    && UniqueNames(out.0) && UniqueNames(out.1)
    && (DOUBLE_EVENT in NameSet(out.0) ==> DOUBLE_EVENT in NameSet(b))
  }

  lemma CuteboldKeeps(tb: Tables, b: seq<Trait>, d: seq<Trait>)
    requires CuteboldNames(tb) && UniqueNames(b) && UniqueNames(d)
    ensures HookKeeps(b, d, CuteboldTraits(tb, b, d))
  {
    CuteboldFacts(tb, b, d);
    AddedNames();
    NotAdded2(b, CuteboldTraits(tb, b, d).0, "Charisma Up", "Mercy Magnet", {}, DOUBLE_EVENT);
  }

  lemma RoughboldKeeps(tb: Tables, b: seq<Trait>, d: seq<Trait>)
    requires RoughboldNames(tb) && UniqueNames(b) && UniqueNames(d)
    ensures HookKeeps(b, d, RoughboldTraits(tb, b, d))
  {
    RoughboldFacts(tb, b, d);
    AddedNames();
    NotAdded2(b, RoughboldTraits(tb, b, d).0, "Intelligence Up", "Pack Tactics", {}, DOUBLE_EVENT);
  }

  lemma WereboldKeeps(tb: Tables, b: seq<Trait>, d: seq<Trait>)
    requires WereboldNames(tb) && UniqueNames(b) && UniqueNames(d)
    ensures HookKeeps(b, d, WereboldTraits(tb, b, d))
  {
    WereboldBoons(tb, b, d);
    WereboldDrawbacks(tb, b, d);
    AddedNames();
    NotAdded3(b, WereboldTraits(tb, b, d).0, "Hidden Talent", "Milkers", SUDDEN_EVOLUTION, {"Early Bloomers"}, DOUBLE_EVENT);
  }

  lemma FairyboldKeeps(tb: Tables, b: seq<Trait>, d: seq<Trait>)
    requires FairyboldNames(tb) && UniqueNames(b) && UniqueNames(d)
    ensures HookKeeps(b, d, FairyboldTraits(tb, b, d))
  {
    FairyboldFacts(tb, b, d);
    AddedNames();
    NotAdded3(b, FairyboldTraits(tb, b, d).0, "Wings", "Dexterity Up", "Magic Attunement", {}, DOUBLE_EVENT);
  }

  lemma RoboldKeeps(tb: Tables, b: seq<Trait>, d: seq<Trait>)
    requires RoboldNames(tb) && UniqueNames(b) && UniqueNames(d)
    ensures HookKeeps(b, d, RoboldTraits(tb, b, d))
  {
    RoboldFacts(tb, b, d);
    AddedNames();
    NotAdded1(b, RoboldTraits(tb, b, d).0, "Modular", {"Early Bloomers"}, DOUBLE_EVENT);
  }

  lemma DogboldKeeps(tb: Tables, b: seq<Trait>, d: seq<Trait>)
    requires DogboldNames(tb) && UniqueNames(b) && UniqueNames(d)
    ensures HookKeeps(b, d, DogboldTraits(tb, b, d))
  {
    DogboldFacts(tb, b, d);
    AddedNames();
    NotAdded2(b, DogboldTraits(tb, b, d).0, "Wisdom Up", "Man's Best Friend", {}, DOUBLE_EVENT);
  }

  /** A race hook on two pools with unique names leaves two pools with unique
      names, and brings in no "Double Event". */
  lemma HookShape(h: Hook, b: seq<Trait>, d: seq<Trait>)
    requires UniqueNames(b) && UniqueNames(d)
    ensures HookKeeps(b, d, ApplyTraits(h, b, d))
  {
    TableNames();
    var tb := Tables(BOONS, DRAWBACKS);
    match h
    case CuteboldHook => CuteboldKeeps(tb, b, d);
    case RoughboldHook => RoughboldKeeps(tb, b, d);
    case WereboldHook => WereboldKeeps(tb, b, d);
    case FairyboldHook => FairyboldKeeps(tb, b, d);
    case RoboldHook => RoboldKeeps(tb, b, d);
    case DogboldHook => DogboldKeeps(tb, b, d);
  }

  /** The boon pool before the hook: unique names, and no "Double Event"
      for a twin. */
  lemma BoonsPoolFacts(selectedBoons: seq<Trait>, excludeDoubleEvent: bool, boonsPool: seq<Trait>)
    requires UniqueNames(selectedBoons)
    requires boonsPool == if excludeDoubleEvent then Without(FreshPool(selectedBoons), DOUBLE_EVENT) else FreshPool(selectedBoons)
    ensures UniqueNames(boonsPool) && (excludeDoubleEvent ==> DOUBLE_EVENT !in NameSet(boonsPool))
  {
    FreshPoolNames(selectedBoons);
    WithoutNames(FreshPool(selectedBoons), DOUBLE_EVENT);
    WithoutUnique(FreshPool(selectedBoons), DOUBLE_EVENT);
  }

  /** An optional hook keeps what every hook keeps. */
  lemma MaybeHookKeeps(hook: Option<Hook>, b: seq<Trait>, d: seq<Trait>)
    requires UniqueNames(b) && UniqueNames(d)
    ensures HookKeeps(b, d, Hooked(hook, b, d))
  {
    if hook.Some? {
      HookShape(hook.value, b, d);
    }
  }

  /** The pools after the hook keep unique names, and a twin's boon pool has
      no "Double Event". */
  lemma HookedPoolsFacts(race: Option<Picked>, selectedBoons: seq<Trait>, selectedDrawbacks: seq<Trait>, excludeDoubleEvent: bool)
    requires UniqueNames(selectedBoons) && UniqueNames(selectedDrawbacks)
    ensures var (b, d) := HookedPools(race, selectedBoons, selectedDrawbacks, excludeDoubleEvent);
      && UniqueNames(b) && UniqueNames(d)
      && (excludeDoubleEvent ==> DOUBLE_EVENT !in NameSet(b))
  {
    var copies := FreshPool(selectedBoons);
    var boonsPool := if excludeDoubleEvent then Without(copies, DOUBLE_EVENT) else copies;
    BoonsPoolFacts(selectedBoons, excludeDoubleEvent, boonsPool);
    FreshPoolNames(selectedDrawbacks);
    MaybeHookKeeps(HookOf(race), boonsPool, FreshPool(selectedDrawbacks));
  }

  /** A twin gets no "Double Event": it is in neither the merged boon pool
      nor either tier of the boon result. */
  lemma TwinHasNoDoubleEvent(race: Option<Picked>, selectedBoons: seq<Trait>, selectedDrawbacks: seq<Trait>,
                             selectedHalfboons: seq<Trait>, draws: Draws, next: nat)
    requires UniqueNames(selectedBoons) && UniqueNames(selectedDrawbacks)
    ensures DOUBLE_EVENT !in NameSet(Pools(race, selectedBoons, selectedDrawbacks, selectedHalfboons, true).0)
    ensures var boonResult := Card(race, selectedBoons, selectedDrawbacks, selectedHalfboons, true, draws, next).0;
      DOUBLE_EVENT !in boonResult.common && DOUBLE_EVENT !in boonResult.rare
  {
    HookedPoolsFacts(race, selectedBoons, selectedDrawbacks, true);
    var (b, d) := HookedPools(race, selectedBoons, selectedDrawbacks, true);
    var half := HalfboonsFor(selectedHalfboons, true);
    WithoutNames(selectedHalfboons, DOUBLE_EVENT);
    MergeMeaning(b, half, DOUBLE_EVENT);
    ComputeTidy(Merge(b, half), {}, draws, next);
  }

  /** Both pools that reach `computeItems` have unique names. */
  lemma PoolsUnique(race: Option<Picked>, selectedBoons: seq<Trait>, selectedDrawbacks: seq<Trait>,
                    selectedHalfboons: seq<Trait>, excludeDoubleEvent: bool)
    requires UniqueNames(selectedBoons) && UniqueNames(selectedDrawbacks)
    ensures UniqueNames(Pools(race, selectedBoons, selectedDrawbacks, selectedHalfboons, excludeDoubleEvent).0)
    ensures UniqueNames(Pools(race, selectedBoons, selectedDrawbacks, selectedHalfboons, excludeDoubleEvent).1)
  {
    HookedPoolsFacts(race, selectedBoons, selectedDrawbacks, excludeDoubleEvent);
    var (b, d) := HookedPools(race, selectedBoons, selectedDrawbacks, excludeDoubleEvent);
    MergeMeaning(b, HalfboonsFor(selectedHalfboons, excludeDoubleEvent), "");
  }

  /** A boon the race guaranteed keeps its entry through the halfboon merge,
      and, when it has no dependencies and is neither "Sudden Evolution" nor
      "Synchronous Element", it lands in the boons' `common` tier. */
  lemma GuaranteedBoonLands(race: Option<Picked>, selectedBoons: seq<Trait>, selectedDrawbacks: seq<Trait>,
                            selectedHalfboons: seq<Trait>, excludeDoubleEvent: bool, draws: Draws, next: nat, n: string)
    requires UniqueNames(selectedBoons) && UniqueNames(selectedDrawbacks)
    requires Guaranteed(HookedPools(race, selectedBoons, selectedDrawbacks, excludeDoubleEvent).0, n)
    ensures var m := Pools(race, selectedBoons, selectedDrawbacks, selectedHalfboons, excludeDoubleEvent).0;
      FirstNamed(m, n) == FirstNamed(HookedPools(race, selectedBoons, selectedDrawbacks, excludeDoubleEvent).0, n)
    ensures var m := Pools(race, selectedBoons, selectedDrawbacks, selectedHalfboons, excludeDoubleEvent).0;
      var boonResult := Card(race, selectedBoons, selectedDrawbacks, selectedHalfboons, excludeDoubleEvent, draws, next).0;
      forall i | 0 <= i < |m| && m[i].name == n && ExpandDependencies(m[i], m) == []
                 && n != SUDDEN_EVOLUTION && n != SYNCHRONOUS_ELEMENT :: n in boonResult.common
  {
    HookedPoolsFacts(race, selectedBoons, selectedDrawbacks, excludeDoubleEvent);
    var (b, d) := HookedPools(race, selectedBoons, selectedDrawbacks, excludeDoubleEvent);
    var half := HalfboonsFor(selectedHalfboons, excludeDoubleEvent);
    MergeKeepsGuaranteed(b, half, n);
    PinnedLands(Merge(b, half), {}, draws, next, n);
  }

  /** The merge keeps a guaranteed entry as it is, and names unique. */
  lemma MergeKeepsGuaranteed(b: seq<Trait>, half: seq<Trait>, n: string)
    requires UniqueNames(b) && Guaranteed(b, n)
    ensures UniqueNames(Merge(b, half)) && FirstNamed(Merge(b, half), n) == FirstNamed(b, n)
    ensures Guaranteed(Merge(b, half), n)
  {
    MergeCases(b, half, n);
    MergeMeaning(b, half, n);
  }

  /** An entry pinned to 1 by a race, without dependencies and other than
      "Sudden Evolution" and "Synchronous Element", ends in `common`. */
  lemma PinnedLands(items: seq<Trait>, ext: set<string>, draws: Draws, next: nat, n: string)
    requires UniqueNames(items) && Guaranteed(items, n)
    ensures var o := ComputeSpec(items, ext, draws, next).0;
      forall i | 0 <= i < |items| && items[i].name == n && ExpandDependencies(items[i], items) == []
                 && n != SUDDEN_EVOLUTION && n != SYNCHRONOUS_ELEMENT :: n in o.common
  {
    ComputeFiltered(items, ext, draws, next);
    forall i | 0 <= i < |items| && items[i].name == n ensures EffectiveProb(items[i]) >= 1.0 {
      FirstNamedUnique(items, i);
    }
  }

  /** A drawback the race guaranteed, without dependencies and other than
      "Sudden Evolution" and "Synchronous Element", lands in the drawbacks'
      `common` tier whatever the boons did. */
  lemma GuaranteedDrawbackLands(race: Option<Picked>, selectedBoons: seq<Trait>, selectedDrawbacks: seq<Trait>,
                                selectedHalfboons: seq<Trait>, excludeDoubleEvent: bool, draws: Draws, next: nat, n: string)
    requires UniqueNames(selectedBoons) && UniqueNames(selectedDrawbacks)
    requires Guaranteed(HookedPools(race, selectedBoons, selectedDrawbacks, excludeDoubleEvent).1, n)
    ensures var d := HookedPools(race, selectedBoons, selectedDrawbacks, excludeDoubleEvent).1;
      var drawbackResult := Card(race, selectedBoons, selectedDrawbacks, selectedHalfboons, excludeDoubleEvent, draws, next).1;
      forall i | 0 <= i < |d| && d[i].name == n && ExpandDependencies(d[i], d) == []
                 && n != SUDDEN_EVOLUTION && n != SYNCHRONOUS_ELEMENT :: n in drawbackResult.common
  {
    HookedPoolsFacts(race, selectedBoons, selectedDrawbacks, excludeDoubleEvent);
    var (m, d) := Pools(race, selectedBoons, selectedDrawbacks, selectedHalfboons, excludeDoubleEvent);
    var (boonResult, n1) := ComputeSpec(m, {}, draws, next);
    PinnedLands(d, Successes(boonResult), draws, n1, n);
  }

  /** A drawback whose dependencies all lie outside the drawback pool, one of
      them a boon of this kobold's boon result, is in a drawback tier only
      when the "Synchronous Element" linkage put it there. */
  lemma DrawbackVoidedByBoon(race: Option<Picked>, selectedBoons: seq<Trait>, selectedDrawbacks: seq<Trait>,
                             selectedHalfboons: seq<Trait>, excludeDoubleEvent: bool, draws: Draws, next: nat, i: nat)
    requires UniqueNames(selectedBoons) && UniqueNames(selectedDrawbacks)
    requires var (m, d) := Pools(race, selectedBoons, selectedDrawbacks, selectedHalfboons, excludeDoubleEvent);
      var (boonResult, n1) := ComputeSpec(m, {}, draws, next);
      && i < |d| && d[i].name != SUDDEN_EVOLUTION
      && (forall x | x in ExpandDependencies(d[i], d) :: x !in NameSet(d))
      && (exists x | x in ExpandDependencies(d[i], d) :: x in boonResult.common || x in boonResult.rare)
    ensures var d := Pools(race, selectedBoons, selectedDrawbacks, selectedHalfboons, excludeDoubleEvent).1;
      var drawbackResult := Card(race, selectedBoons, selectedDrawbacks, selectedHalfboons, excludeDoubleEvent, draws, next).1;
      d[i].name in drawbackResult.common || d[i].name in drawbackResult.rare ==> d[i].name in drawbackResult.linked
  {
    PoolsUnique(race, selectedBoons, selectedDrawbacks, selectedHalfboons, excludeDoubleEvent);
    var (m, d) := Pools(race, selectedBoons, selectedDrawbacks, selectedHalfboons, excludeDoubleEvent);
    var (boonResult, n1) := ComputeSpec(m, {}, draws, next);
    ComputeExternalVoids(d, Successes(boonResult), draws, n1, i);
  }
}
