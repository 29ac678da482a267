/** What the dependency-ordered resolver guarantees: the invariants every
    state keeps, termination with every pool name decided, and the
    dependency rules. */
module ResolutionProofs {
  import opened Traits
  import opened Dependencies
  import opened Resolution

  /** Bookkeeping every state keeps: only pool names are decided, a success
      is a decision, the tiers are duplicate-free, disjoint, and hold exactly
      the succeeded names; the current engine never lets "Sudden Evolution"
      succeed here, since its roll belongs to a later stage. */
  ghost predicate Sane(r: Run, s: Tally) {
    && s.decided <= NameSet(r.items)
    && s.succeeded <= s.decided
    && NoDup(s.common) && NoDup(s.rare)
    && Elems(s.common) !! Elems(s.rare)
    && Elems(s.common) + Elems(s.rare) == s.succeeded
    && (r.engine == Current ==> SUDDEN_EVOLUTION !in s.succeeded)
  }

  /** `common` holds only traits of effective probability at least 1, `rare`
      only traits whose probability lies strictly between 0 and 1. */
  ghost predicate Classified(r: Run, s: Tally) {
    && (forall n | n in s.common ::
          FirstNamed(r.items, n).Some? && EffectiveProb(FirstNamed(r.items, n).value) >= 1.0)
    && (forall n | n in s.rare ::
          FirstNamed(r.items, n).Some? && 0.0 < EffectiveProb(FirstNamed(r.items, n).value) < 1.0)
  }

  /** A decided trait of probability at least 1 none of whose dependencies
      succeeded is in `common` (unless its roll belongs to another stage). */
  ghost predicate GuaranteedLand(r: Run, s: Tally) {
    forall i | 0 <= i < |r.items| && r.items[i].name in s.decided ::
      (!SkipsRoll(r.engine, r.items[i]) && EffectiveProb(r.items[i]) >= 1.0
        && !AnyDependencySucceeded(r.items[i], r.items, s.succeeded, r.ext))
      ==> r.items[i].name in s.common
  }

  ghost predicate Inv(r: Run, s: Tally) {
    Sane(r, s) && Classified(r, s) && GuaranteedLand(r, s)
  }

  lemma StartInv(r: Run, next: nat)
    ensures Inv(r, Start(next))
  {
  }

  /** Succeeding dependencies stay succeeded. */
  lemma AnyDependencyMonotone(t: Trait, items: seq<Trait>, a: set<string>, b: set<string>, ext: set<string>)
    requires a <= b && AnyDependencySucceeded(t, items, a, ext)
    ensures AnyDependencySucceeded(t, items, b, ext)
  {
    AnyDependencyMeaning(t, items, a, ext);
    AnyDependencyMeaning(t, items, b, ext);
  }

  /** The state after deciding trait t by a roll. */
  function RollAndDecide(r: Run, t: Trait, s: Tally): Tally {
    var rolled := Roll(r, t, s);
    rolled.(decided := rolled.decided + {t.name})
  }

  lemma RollKeepsSane(r: Run, t: Trait, s: Tally)
    requires Sane(r, s) && t in r.items && t.name !in s.decided
    ensures Sane(r, RollAndDecide(r, t, s))
  {
    var s' := RollAndDecide(r, t, s);
    assert t.name !in s.common && t.name !in s.rare by {
      assert Elems(s.common) + Elems(s.rare) == s.succeeded;
    }
    if SkipsRoll(r.engine, t) {
    } else if EffectiveProb(t) >= 1.0 {
      ElemsAppend(s.common, t.name);
      NoDupAppend(s.common, t.name);
    } else if r.draws(s.next) < EffectiveProb(t) {
      ElemsAppend(s.rare, t.name);
      NoDupAppend(s.rare, t.name);
    }
  }

  lemma RollKeepsClassified(r: Run, i: nat, s: Tally)
    requires UniqueNames(r.items) && i < |r.items| && Classified(r, s)
    ensures Classified(r, RollAndDecide(r, r.items[i], s))
  {
    FirstNamedUnique(r.items, i);
  }

  lemma RollKeepsGuaranteedLand(r: Run, i: nat, s: Tally)
    requires UniqueNames(r.items) && i < |r.items| && GuaranteedLand(r, s)
    requires r.items[i].name !in s.decided
    ensures GuaranteedLand(r, RollAndDecide(r, r.items[i], s))
  {
    var t := r.items[i];
    var s' := RollAndDecide(r, t, s);
    forall j | 0 <= j < |r.items| && r.items[j].name in s'.decided
      && !SkipsRoll(r.engine, r.items[j]) && EffectiveProb(r.items[j]) >= 1.0
      && !AnyDependencySucceeded(r.items[j], r.items, s'.succeeded, r.ext)
      ensures r.items[j].name in s'.common
    {
      if j != i {
        assert r.items[j].name != t.name;
        if AnyDependencySucceeded(r.items[j], r.items, s.succeeded, r.ext) {
          assert s.succeeded <= s'.succeeded;
          AnyDependencyMonotone(r.items[j], r.items, s.succeeded, s'.succeeded, r.ext);
        }
      }
    }
  }

  /** Deciding the undecided trait items[i] by a roll keeps the invariant. */
  lemma RollKeepsInv(r: Run, i: nat, s: Tally)
    requires UniqueNames(r.items) && i < |r.items| && Inv(r, s)
    requires r.items[i].name !in s.decided
    ensures Inv(r, RollAndDecide(r, r.items[i], s))
  {
    RollKeepsSane(r, r.items[i], s);
    RollKeepsClassified(r, i, s);
    RollKeepsGuaranteedLand(r, i, s);
  }

  /** Deciding the undecided trait items[i] without a roll, because a
      dependency succeeded, keeps the invariant. */
  lemma VoidKeepsInv(r: Run, i: nat, s: Tally)
    requires UniqueNames(r.items) && i < |r.items| && Inv(r, s)
    requires r.items[i].name !in s.decided
    requires AnyDependencySucceeded(r.items[i], r.items, s.succeeded, r.ext)
    ensures Inv(r, s.(decided := s.decided + {r.items[i].name}))
  {
    var s' := s.(decided := s.decided + {r.items[i].name});
    assert Sane(r, s') by {
      assert r.items[i].name in NameSet(r.items);
    }
    assert Classified(r, s') by {
      assert s'.common == s.common && s'.rare == s.rare;
    }
    VoidKeepsGuaranteedLand(r, i, s);
  }

  lemma VoidKeepsGuaranteedLand(r: Run, i: nat, s: Tally)
    requires UniqueNames(r.items) && i < |r.items| && GuaranteedLand(r, s)
    requires AnyDependencySucceeded(r.items[i], r.items, s.succeeded, r.ext)
    ensures GuaranteedLand(r, s.(decided := s.decided + {r.items[i].name}))
  {
    var s' := s.(decided := s.decided + {r.items[i].name});
    forall j | 0 <= j < |r.items| && r.items[j].name in s'.decided
      && !SkipsRoll(r.engine, r.items[j]) && EffectiveProb(r.items[j]) >= 1.0
      && !AnyDependencySucceeded(r.items[j], r.items, s'.succeeded, r.ext)
      ensures r.items[j].name in s'.common
    {
      if j != i {
        assert r.items[j].name != r.items[i].name;
      }
    }
  }

  lemma StepKeepsInv(r: Run, i: nat, s: Tally)
    requires UniqueNames(r.items) && i < |r.items|
    ensures Inv(r, s) ==> Inv(r, Step(r, r.items[i], s).0)
  {
    if !Inv(r, s) {
      return;
    }
    var t := r.items[i];
    if t.name in s.decided || !CanProcess(AbsentIsDecided(r.engine), t, r.items, s.decided) {
    } else if AnyDependencySucceeded(t, r.items, s.succeeded, r.ext) {
      VoidKeepsInv(r, i, s);
    } else {
      RollKeepsInv(r, i, s);
    }
  }

  /** A step decides at most its own trait, and reports progress exactly when
      it decided it. */
  lemma StepGrowth(r: Run, t: Trait, s: Tally)
    ensures var (s', p) := Step(r, t, s);
      && s.decided <= s'.decided <= s.decided + {t.name}
      && s.succeeded <= s'.succeeded
      && (p <==> s'.decided != s.decided)
      && (t.name !in s'.decided ==> s' == s)
  {
  }

  lemma {:induction false} PassUpToKeepsInv(r: Run, k: nat, s: Tally)
    requires UniqueNames(r.items) && k <= |r.items| && Inv(r, s)
    ensures Inv(r, PassUpTo(r, k, s).0)
  {
    if k > 0 {
      PassUpToKeepsInv(r, k - 1, s);
      var s1 := PassUpTo(r, k - 1, s).0;
      StepKeepsInv(r, k - 1, s1);
    }
  }

  /** A pass only adds pool names to the decided set, and it progressed
      exactly when the decided set grew. */
  lemma {:induction false} PassUpToGrowth(r: Run, k: nat, s: Tally)
    requires k <= |r.items|
    ensures var (s', p) := PassUpTo(r, k, s);
      && s.decided <= s'.decided <= s.decided + NameSet(r.items)
      && s.succeeded <= s'.succeeded
      && (p <==> s'.decided != s.decided)
  {
    if k > 0 {
      PassUpToGrowth(r, k - 1, s);
      var (s1, p1) := PassUpTo(r, k - 1, s);
      StepGrowth(r, r.items[k - 1], s1);
      var (s2, p2) := Step(r, r.items[k - 1], s1);
      GrowthCompose(s, s1, p1, s2, p2, NameSet(r.items), r.items[k - 1].name);
    }
  }

  /** Growth within `names` followed by a step that may decide `n`, one of
      them, is growth within `names`, with progress if either made it. */
  lemma GrowthCompose(s: Tally, s1: Tally, p1: bool, s2: Tally, p2: bool, names: set<string>, n: string)
    ensures && s.decided <= s1.decided <= s.decided + names && s.succeeded <= s1.succeeded
            && (p1 <==> s1.decided != s.decided)
            && s1.decided <= s2.decided <= s1.decided + {n} && s1.succeeded <= s2.succeeded
            && (p2 <==> s2.decided != s1.decided)
            && n in names
      ==> && s.decided <= s2.decided <= s.decided + names && s.succeeded <= s2.succeeded
          && (p1 || p2 <==> s2.decided != s.decided)
  {
    if p1 && s.decided <= s1.decided && (p1 <==> s1.decided != s.decided) && s1.decided <= s2.decided {
      var x :| x in s1.decided && x !in s.decided;
      assert x in s2.decided;
    }
  }

  /** The first k steps of a pass decide only names of the first k traits. */
  lemma {:induction false} PassUpToDecidesPrefix(r: Run, k: nat, s: Tally)
    requires k <= |r.items|
    ensures PassUpTo(r, k, s).0.decided <= s.decided + NameSet(r.items[..k])
  {
    if k > 0 {
      PassUpToDecidesPrefix(r, k - 1, s);
      StepGrowth(r, r.items[k - 1], PassUpTo(r, k - 1, s).0);
      NameSetPrefix(r.items, k);
    }
  }

  lemma {:induction false} FallbackUpToKeepsInv(r: Run, k: nat, s: Tally)
    requires UniqueNames(r.items) && k <= |r.items| && Inv(r, s)
    ensures Inv(r, FallbackUpTo(r, k, s))
  {
    if k > 0 {
      FallbackUpToKeepsInv(r, k - 1, s);
      FallbackStepKeepsInv(r, k, s);
    }
  }

  /** The k-th step of the fallback sweep keeps the invariant. */
  lemma FallbackStepKeepsInv(r: Run, k: nat, s: Tally)
    requires UniqueNames(r.items) && 0 < k <= |r.items|
    ensures Inv(r, FallbackUpTo(r, k - 1, s)) ==> Inv(r, FallbackUpTo(r, k, s))
  {
    var s1 := FallbackUpTo(r, k - 1, s);
    if !Inv(r, s1) {
      return;
    }
    var s2 := s1;
    if r.items[k - 1].name !in s1.decided {
      RollKeepsInv(r, k - 1, s1);
      s2 := RollAndDecide(r, r.items[k - 1], s1);
    }
    assert Inv(r, s2);
    assert FallbackUpTo(r, k, s) == s2;
    InvSubst(r, s2, FallbackUpTo(r, k, s));
  }

  /** The invariant depends on the tally only through its value. */
  lemma InvSubst(r: Run, a: Tally, b: Tally)
    ensures a == b && Inv(r, a) ==> Inv(r, b)
  {
  }

  /** The fallback sweep decides every one of the first k traits and nothing else. */
  lemma {:induction false} FallbackUpToDecides(r: Run, k: nat, s: Tally)
    requires k <= |r.items|
    ensures s.decided <= FallbackUpTo(r, k, s).decided <= s.decided + NameSet(r.items)
    ensures forall j | 0 <= j < k :: r.items[j].name in FallbackUpTo(r, k, s).decided
    ensures s.succeeded <= FallbackUpTo(r, k, s).succeeded
  {
    if k > 0 {
      FallbackUpToDecides(r, k - 1, s);
    }
  }

  /** After the fallback sweep every pool name is decided. */
  lemma FallbackDecidesAll(r: Run, s: Tally)
    requires s.decided <= NameSet(r.items)
    ensures Fallback(r, s).decided == NameSet(r.items)
  {
    FallbackUpToDecides(r, |r.items|, s);
  }

  /** A strictly larger finite set is strictly larger in size. */
  lemma StrictSubsetSize<T>(a: set<T>, b: set<T>)
    requires a <= b && a != b
    ensures |a| < |b|
  {
    var x :| x in b && x !in a;
    assert b == a + (b - a);
    assert x in b - a;
  }

  lemma {:induction false} LoopKeepsInv(r: Run, pass: nat, s: Tally)
    requires UniqueNames(r.items) && Inv(r, s)
    ensures Inv(r, Loop(r, pass, s))
    decreases MaxPasses(r) - pass
  {
    if |s.decided| < |r.items| && pass < MaxPasses(r) {
      PassUpToKeepsInv(r, |r.items|, s);
      var (s1, progressed) := Pass(r, s);
      if !progressed {
        FallbackUpToKeepsInv(r, |r.items|, s1);
      } else {
        LoopKeepsInv(r, pass + 1, s1);
      }
    }
  }

  /** Termination with completeness: from a state that made at least one
      decision per pass so far, the loop ends with every pool name decided;
      the cap of 2N passes is never what stops it while a name is undecided. */
  lemma {:induction false} LoopDecidesAll(r: Run, pass: nat, s: Tally)
    requires UniqueNames(r.items) && s.decided <= NameSet(r.items) && |s.decided| >= pass
    ensures Loop(r, pass, s).decided == NameSet(r.items)
    decreases MaxPasses(r) - pass, 1
  {
    if |s.decided| < |r.items| && pass < MaxPasses(r) {
      LoopAdvanceDecides(r, pass, s);
    } else {
      LoopStopsDecided(r, pass, s);
    }
  }

  /** One more pass: one without progress hands over to the fallback sweep,
      which decides the rest; one with progress keeps a decision per pass. */
  lemma {:induction false} LoopAdvanceDecides(r: Run, pass: nat, s: Tally)
    requires UniqueNames(r.items) && s.decided <= NameSet(r.items) && |s.decided| >= pass
    requires |s.decided| < |r.items| && pass < MaxPasses(r)
    ensures Loop(r, pass, s).decided == NameSet(r.items)
    decreases MaxPasses(r) - pass, 0
  {
    var next := Pass(r, s);
    var s1 := next.0;
    assert s1.decided <= NameSet(r.items) && (next.1 ==> |s1.decided| >= pass + 1) by {
      PassProgress(r, s);
    }
    if !next.1 {
      assert Loop(r, pass, s) == Fallback(r, s1);
      FallbackDecidesAll(r, s1);
    } else {
      assert Loop(r, pass, s) == Loop(r, pass + 1, s1);
      LoopDecidesAll(r, pass + 1, s1);
    }
  }

  /** The loop stops only once every pool name is decided: its pass count
      never outruns the number of decided names. */
  lemma LoopStopsDecided(r: Run, pass: nat, s: Tally)
    requires UniqueNames(r.items) && s.decided <= NameSet(r.items) && |s.decided| >= pass
    requires !(|s.decided| < |r.items| && pass < MaxPasses(r))
    ensures Loop(r, pass, s).decided == NameSet(r.items)
  {
    UniqueNameCount(r.items);
    SubsetFull(s.decided, NameSet(r.items));
  }

  /** A pass decides only pool names, and one that reports progress decided
      at least one more name. */
  lemma PassProgress(r: Run, s: Tally)
    requires s.decided <= NameSet(r.items)
    ensures Pass(r, s).0.decided <= NameSet(r.items)
    ensures Pass(r, s).1 ==> |Pass(r, s).0.decided| > |s.decided|
  {
    PassUpToGrowth(r, |r.items|, s);
    var (s1, progressed) := Pass(r, s);
    if progressed {
      StrictSubsetSize(s.decided, s1.decided);
    }
  }

  /** The resolver's result: every pool name decided, the tiers disjoint,
      duplicate-free and equal to the succeeded set, each tier holding only
      traits of its probability class, and every trait of probability at
      least 1 with no succeeded dependency in `common`. */
  lemma ResolveFacts(r: Run, next: nat)
    requires UniqueNames(r.items)
    ensures Resolve(r, next).decided == NameSet(r.items)
    ensures Inv(r, Resolve(r, next))
  {
    StartInv(r, next);
    LoopDecidesAll(r, 0, Start(next));
    LoopKeepsInv(r, 0, Start(next));
  }

  /** Once a name is decided without success it stays so: later steps,
      passes, the fallback sweep and the loop only add other names. */
  ghost predicate Voided(n: string, s: Tally) {
    n in s.decided && n !in s.succeeded
  }

  lemma StepKeepsVoided(r: Run, t: Trait, s: Tally, n: string)
    requires Voided(n, s)
    ensures Voided(n, Step(r, t, s).0)
  {
  }

  /** A trait voided after the first j steps of a pass stays voided. */
  lemma {:induction false} PassUpToKeepsVoided(r: Run, j: nat, k: nat, s: Tally, n: string)
    requires j <= k <= |r.items| && Voided(n, PassUpTo(r, j, s).0)
    ensures Voided(n, PassUpTo(r, k, s).0)
  {
    if j < k {
      PassUpToKeepsVoided(r, j, k - 1, s, n);
      StepKeepsVoided(r, r.items[k - 1], PassUpTo(r, k - 1, s).0, n);
    }
  }

  lemma {:induction false} FallbackUpToKeepsVoided(r: Run, k: nat, s: Tally, n: string)
    requires k <= |r.items| && Voided(n, s)
    ensures Voided(n, FallbackUpTo(r, k, s))
  {
    if k > 0 {
      FallbackUpToKeepsVoided(r, k - 1, s, n);
    }
  }

  lemma {:induction false} LoopKeepsVoided(r: Run, pass: nat, s: Tally, n: string)
    requires Voided(n, s)
    ensures Voided(n, Loop(r, pass, s))
    decreases MaxPasses(r) - pass
  {
    if |s.decided| < |r.items| && pass < MaxPasses(r) {
      assert PassUpTo(r, 0, s).0 == s;
      PassUpToKeepsVoided(r, 0, |r.items|, s, n);
      var (s1, progressed) := Pass(r, s);
      if !progressed {
        FallbackUpToKeepsVoided(r, |r.items|, s1, n);
      } else {
        LoopKeepsVoided(r, pass + 1, s1, n);
      }
    }
  }

  /** Every dependency of t names no trait of the pool. */
  ghost predicate AllDepsOutside(r: Run, t: Trait) {
    forall d | d in ExpandDependencies(t, r.items) :: d !in NameSet(r.items)
  }

  /** Some dependency of t is in the external succeeded set. */
  ghost predicate SomeDepExternal(r: Run, t: Trait) {
    exists d | d in ExpandDependencies(t, r.items) :: d in r.ext
  }

  /** The step for an undecided trait whose dependencies all lie outside the
      pool, one of them succeeded outside the run, voids it. */
  lemma VoidStep(r: Run, t: Trait, s: Tally)
    requires r.engine == Current && t.name !in s.decided && s.succeeded <= s.decided
    requires AllDepsOutside(r, t) && SomeDepExternal(r, t)
    ensures Voided(t.name, Step(r, t, s).0)
  {
    CanProcessMeaning(true, t, r.items, s.decided);
    AnyDependencyMeaning(t, r.items, s.succeeded, r.ext);
  }

  /** In the first pass the trait items[i], whose dependencies all lie
      outside the pool and one of which succeeded outside the run, is voided. */
  lemma FirstPassVoids(r: Run, next: nat, k: nat, i: nat)
    requires r.engine == Current && UniqueNames(r.items) && i < k <= |r.items|
    requires AllDepsOutside(r, r.items[i]) && SomeDepExternal(r, r.items[i])
    ensures Voided(r.items[i].name, PassUpTo(r, k, Start(next)).0)
  {
    FirstPassVoidsAt(r, next, i);
    PassUpToKeepsVoided(r, i + 1, k, Start(next), r.items[i].name);
  }

  /** The step of the first pass that reaches items[i] voids it. */
  lemma FirstPassVoidsAt(r: Run, next: nat, i: nat)
    requires r.engine == Current && UniqueNames(r.items) && i < |r.items|
    requires AllDepsOutside(r, r.items[i]) && SomeDepExternal(r, r.items[i])
    ensures Voided(r.items[i].name, PassUpTo(r, i + 1, Start(next)).0)
  {
    PassUpToDecidesPrefix(r, i, Start(next));
    var s1 := PassUpTo(r, i, Start(next)).0;
    assert r.items[i].name !in NameSet(r.items[..i]) by {
      forall j | 0 <= j < i ensures r.items[..i][j].name != r.items[i].name {
        assert r.items[..i][j] == r.items[j];
      }
    }
    StartInv(r, next);
    PassUpToKeepsInv(r, i, Start(next));
    VoidStep(r, r.items[i], s1);
    assert PassUpTo(r, i + 1, Start(next)).0 == Step(r, r.items[i], s1).0;
  }

  /** The current engine: a trait whose dependencies all lie outside the pool
      is processed in the first pass, and if one of them is in the external
      succeeded set it is voided and never joins either tier. */
  lemma ExternalDependencyVoids(r: Run, next: nat, i: nat)
    requires r.engine == Current && UniqueNames(r.items) && i < |r.items|
    requires AllDepsOutside(r, r.items[i]) && SomeDepExternal(r, r.items[i])
    ensures r.items[i].name !in Resolve(r, next).common
    ensures r.items[i].name !in Resolve(r, next).rare
  {
    FirstPassVoids(r, next, |r.items|, i);
    var (s1, progressed) := Pass(r, Start(next));
    if !progressed {
      FallbackUpToKeepsVoided(r, |r.items|, s1, r.items[i].name);
    } else {
      LoopKeepsVoided(r, 1, s1, r.items[i].name);
    }
    ResolveFacts(r, next);
  }
}
