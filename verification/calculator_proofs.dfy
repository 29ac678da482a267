/** What `computeItems` of the current engine guarantees about its result,
    for a pool whose names are unique. */
module CalculatorProofs {
  import opened Traits
  import opened Dependencies
  import opened Resolution
  import opened ResolutionProofs
  import opened PostStages
  import opened PostStageProofs
  import opened Calculator

  /** A name whose first letter is neither 'B' nor 'E' is no breath weapon
      or resistance name; nor does such a name start with "Diversify:". */
  lemma NotPairName(x: string)
    requires |x| > 0 && x[0] != 'B' && x[0] != 'E'
    ensures Capture(BREATH_WEAPON, x).None? && Capture(ELEMENTAL_RESISTANCE, x).None?
  {
    assert !(BREATH_WEAPON <= x) by { assert BREATH_WEAPON[0] == 'B'; }
    assert !(ELEMENTAL_RESISTANCE <= x) by { assert ELEMENTAL_RESISTANCE[0] == 'E'; }
  }

  lemma PairNameNotDiversify(x: string)
    requires Capture(BREATH_WEAPON, x).Some? || Capture(ELEMENTAL_RESISTANCE, x).Some?
    ensures !(DIVERSIFY <= x) && x != SYNCHRONOUS_ELEMENT && x != DOUBLE_EVENT && x != SUDDEN_EVOLUTION
  {
    assert x[0] == 'B' || x[0] == 'E';
    assert DIVERSIFY[0] == 'D';
  }

  /** The resolution stage of `computeItems`, for a pool with unique names:
      its tiers are tidy, hold only pool names of the right probability class,
      and never hold "Sudden Evolution"; every trait without dependencies of
      probability at least 1 other than "Sudden Evolution" is in `common`. */
  lemma ResolvedTiers(items: seq<Trait>, ext: set<string>, draws: Draws, next: nat)
    requires UniqueNames(items)
    ensures var t := Resolve(Run(Current, items, ext, draws), next);
      && Tidy(Results(t.common, t.rare))
      && (forall x | x in t.common :: x in NameSet(items) && EffectiveProb(FirstNamed(items, x).value) >= 1.0)
      && (forall x | x in t.rare :: x in NameSet(items) && 0.0 < EffectiveProb(FirstNamed(items, x).value) < 1.0)
      && SUDDEN_EVOLUTION !in t.common && SUDDEN_EVOLUTION !in t.rare
      && (forall i | 0 <= i < |items| && ExpandDependencies(items[i], items) == []
            && EffectiveProb(items[i]) >= 1.0 && items[i].name != SUDDEN_EVOLUTION :: items[i].name in t.common)
  {
    var r := Run(Current, items, ext, draws);
    ResolveFacts(r, next);
    var t := Resolve(r, next);
    ElemsMeaning(t.common);
    ElemsMeaning(t.rare);
    forall i | 0 <= i < |items| && ExpandDependencies(items[i], items) == []
      && EffectiveProb(items[i]) >= 1.0 && items[i].name != SUDDEN_EVOLUTION
      ensures items[i].name in t.common
    {
      assert items[i].name in NameSet(items);
      assert !AnyDependencySucceeded(items[i], items, t.succeeded, ext);
    }
  }

  /** The tiers of the result are duplicate-free and disjoint, hold only pool
      names, and every linked name is in one of them. */
  lemma ComputeTidy(items: seq<Trait>, ext: set<string>, draws: Draws, next: nat)
    requires UniqueNames(items)
    ensures var o := ComputeSpec(items, ext, draws, next).0;
      && NoDup(o.common) && NoDup(o.rare) && (forall x | x in o.common :: x !in o.rare)
      && (forall x | x in o.linked :: x in o.common || x in o.rare)
      && (forall x | x in o.common || x in o.rare :: x in NameSet(items))
  {
    ResolvedTiers(items, ext, draws, next);
    var t := Resolve(Run(Current, items, ext, draws), next);
    var res0 := Results(t.common, t.rare);
    SynchronizeFacts(items, res0);
    var (synced, linked) := Synchronize(items, res0);
    EvolutionFacts(items, synced, draws, t.next);
    var e := EvolutionRoll(items, synced, draws, t.next);
    FilterFacts(e.res);
    var f := Filter(e.res);
    ElemsMeaning(f.common);
    ElemsMeaning(f.rare);
    ElemsMeaning(e.res.common);
    ElemsMeaning(e.res.rare);
    ElemsMeaning(synced.common);
    ElemsMeaning(synced.rare);
    ElemsMeaning(res0.common);
    ElemsMeaning(res0.rare);
    forall x | x in linked ensures x in f.common || x in f.rare {
      PairNameNotDiversify(x);
      ElemsPrefix(synced.rare, e.res.rare);
    }
    forall x | x in f.common || x in f.rare ensures x in NameSet(items) {
      if x in e.res.rare && x !in synced.rare {
        assert SUDDEN_EVOLUTION in e.notes;
        assert FirstNamed(items, SUDDEN_EVOLUTION).Some?;
      }
    }
  }

  /** Each tier holds only pool traits of its probability class, except for
      the names the linkage added to `rare` and "Sudden Evolution". */
  lemma ComputeClassified(items: seq<Trait>, ext: set<string>, draws: Draws, next: nat)
    requires UniqueNames(items)
    ensures var o := ComputeSpec(items, ext, draws, next).0;
      && (forall x | x in o.common :: x in NameSet(items) && EffectiveProb(FirstNamed(items, x).value) >= 1.0)
      && (forall x | x in o.rare && x !in o.linked && x != SUDDEN_EVOLUTION ::
            x in NameSet(items) && 0.0 < EffectiveProb(FirstNamed(items, x).value) < 1.0)
  {
    ResolvedTiers(items, ext, draws, next);
    var t := Resolve(Run(Current, items, ext, draws), next);
    var res0 := Results(t.common, t.rare);
    SynchronizeFacts(items, res0);
    var (synced, linked) := Synchronize(items, res0);
    EvolutionFacts(items, synced, draws, t.next);
    var e := EvolutionRoll(items, synced, draws, t.next);
    FilterFacts(e.res);
    ElemsMeaning(synced.common);
    ElemsMeaning(synced.rare);
    ElemsMeaning(res0.common);
    ElemsMeaning(res0.rare);
    ElemsMeaning(e.res.rare);
    forall x | x in synced.common ensures x in NameSet(items) && EffectiveProb(FirstNamed(items, x).value) >= 1.0 {
      if x in linked {
        assert AsCommon(items, x);
      }
    }
  }

  /** "Sudden Evolution" is never in `common`; it is in `rare` exactly when
      the evolution roll drew a form, and the notes hold at most that one
      entry. */
  lemma ComputeEvolution(items: seq<Trait>, ext: set<string>, draws: Draws, next: nat)
    requires UniqueNames(items)
    ensures var o := ComputeSpec(items, ext, draws, next).0;
      && o.evolutionNotes.Keys <= {SUDDEN_EVOLUTION}
      && (SUDDEN_EVOLUTION in o.evolutionNotes <==> SUDDEN_EVOLUTION in o.rare)
      && SUDDEN_EVOLUTION !in o.common
  {
    ResolvedTiers(items, ext, draws, next);
    var t := Resolve(Run(Current, items, ext, draws), next);
    var res0 := Results(t.common, t.rare);
    SynchronizeFacts(items, res0);
    var (synced, linked) := Synchronize(items, res0);
    EvolutionFacts(items, synced, draws, t.next);
    var e := EvolutionRoll(items, synced, draws, t.next);
    FilterFacts(e.res);
    ElemsMeaning(synced.common);
    ElemsMeaning(synced.rare);
    ElemsMeaning(res0.common);
    ElemsMeaning(res0.rare);
    assert SUDDEN_EVOLUTION !in linked by {
      if SUDDEN_EVOLUTION in linked {
        NotPairName(SUDDEN_EVOLUTION);
      }
    }
    assert SUDDEN_EVOLUTION !in synced.common && SUDDEN_EVOLUTION !in synced.rare;
    assert !(DIVERSIFY <= SUDDEN_EVOLUTION) by { assert DIVERSIFY[0] != SUDDEN_EVOLUTION[0]; }
  }

  /** The names the filter removes are gone, and every trait without
      dependencies whose probability is at least 1, other than "Sudden
      Evolution" and "Synchronous Element", is in `common`. */
  lemma ComputeFiltered(items: seq<Trait>, ext: set<string>, draws: Draws, next: nat)
    requires UniqueNames(items)
    ensures var o := ComputeSpec(items, ext, draws, next).0;
      && SYNCHRONOUS_ELEMENT !in o.common && SYNCHRONOUS_ELEMENT !in o.rare && DOUBLE_EVENT !in o.rare
      && (forall x | x in o.rare :: !(DIVERSIFY <= x))
      && (forall i | 0 <= i < |items| && ExpandDependencies(items[i], items) == []
            && EffectiveProb(items[i]) >= 1.0
            && items[i].name != SUDDEN_EVOLUTION && items[i].name != SYNCHRONOUS_ELEMENT ::
            items[i].name in o.common)
  {
    ResolvedTiers(items, ext, draws, next);
    var t := Resolve(Run(Current, items, ext, draws), next);
    var res0 := Results(t.common, t.rare);
    SynchronizeFacts(items, res0);
    var (synced, linked) := Synchronize(items, res0);
    EvolutionFacts(items, synced, draws, t.next);
    var e := EvolutionRoll(items, synced, draws, t.next);
    FilterFacts(e.res);
    ElemsPrefix(res0.common, synced.common);
    ElemsMeaning(res0.common);
    ElemsMeaning(synced.common);
  }

  /** The current engine: a trait whose dependencies all lie outside the pool,
      one of them in the external succeeded set, is in a tier of the result
      only if the "Synchronous Element" linkage put it there ("Sudden
      Evolution", rolled by its own stage, aside). */
  lemma ComputeExternalVoids(items: seq<Trait>, ext: set<string>, draws: Draws, next: nat, i: nat)
    requires UniqueNames(items) && i < |items| && items[i].name != SUDDEN_EVOLUTION
    requires AllDepsOutside(Run(Current, items, ext, draws), items[i])
    requires SomeDepExternal(Run(Current, items, ext, draws), items[i])
    ensures var o := ComputeSpec(items, ext, draws, next).0;
      items[i].name in o.common || items[i].name in o.rare ==> items[i].name in o.linked
  {
    var r := Run(Current, items, ext, draws);
    ExternalDependencyVoids(r, next, i);
    ResolvedTiers(items, ext, draws, next);
    var t := Resolve(r, next);
    var res0 := Results(t.common, t.rare);
    SynchronizeFacts(items, res0);
    var (synced, linked) := Synchronize(items, res0);
    EvolutionFacts(items, synced, draws, t.next);
    var e := EvolutionRoll(items, synced, draws, t.next);
    FilterFacts(e.res);
    ElemsMeaning(res0.common);
    ElemsMeaning(res0.rare);
    ElemsMeaning(synced.common);
    ElemsMeaning(synced.rare);
    ElemsMeaning(e.res.rare);
  }
}
