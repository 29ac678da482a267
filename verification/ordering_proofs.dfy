/** Dependency order in the resolver: what a pass guarantees about the traits
    it rolls, the theorem that an acyclic pool never needs the fallback sweep
    (so a trait whose dependency succeeded never joins a tier), and the older
    engine's treatment of dependencies missing from the pool. */
module OrderingProofs {
  import opened Traits
  import opened Dependencies
  import opened Resolution
  import opened ResolutionProofs

  /** Every dependency of t is settled as a failure in s: decided (or not a
      pool name at all), not succeeded, and not succeeded outside the run. */
  ghost predicate DepsFailed(r: Run, t: Trait, s: Tally) {
    forall d | d in ExpandDependencies(t, r.items) ::
      (d in s.decided || d !in NameSet(r.items)) && d !in s.succeeded && d !in r.ext
  }

  /** Every succeeded trait was rolled after all its dependencies had been
      decided, and none of them succeeded, then or since. */
  ghost predicate Ordered(r: Run, s: Tally) {
    forall i | 0 <= i < |r.items| && r.items[i].name in s.succeeded :: DepsFailed(r, r.items[i], s)
  }

  lemma StepKeepsOrdered(r: Run, i: nat, s: Tally)
    requires i < |r.items|
    ensures UniqueNames(r.items) && Ordered(r, s) ==> Ordered(r, Step(r, r.items[i], s).0)
  {
    if !(UniqueNames(r.items) && Ordered(r, s)) {
      return;
    }
    var t := r.items[i];
    if t.name in s.decided || !CanProcess(AbsentIsDecided(r.engine), t, r.items, s.decided) {
    } else if AnyDependencySucceeded(t, r.items, s.succeeded, r.ext) {
    } else {
      CanProcessMeaning(AbsentIsDecided(r.engine), t, r.items, s.decided);
      AnyDependencyMeaning(t, r.items, s.succeeded, r.ext);
      var s' := Step(r, t, s).0;
      assert s'.decided == s.decided + {t.name};
      assert s'.succeeded <= s.succeeded + {t.name};
      forall j | 0 <= j < |r.items| && r.items[j].name in s'.succeeded
        ensures DepsFailed(r, r.items[j], s')
      {
        if r.items[j].name == t.name {
          assert j == i;
          assert t.name in NameSet(r.items);
        } else {
          assert t.name in NameSet(r.items);
        }
      }
    }
  }

  lemma {:induction false} PassUpToKeepsOrdered(r: Run, k: nat, s: Tally)
    requires k <= |r.items|
    ensures UniqueNames(r.items) && Ordered(r, s) ==> Ordered(r, PassUpTo(r, k, s).0)
  {
    if k > 0 && UniqueNames(r.items) && Ordered(r, s) {
      PassUpToKeepsOrdered(r, k - 1, s);
      var s1 := PassUpTo(r, k - 1, s).0;
      StepKeepsOrdered(r, k - 1, s1);
    }
  }

  /** A ranking of the pool: every dependency that names a pool trait ranks
      strictly below the trait that waits for it. Such a ranking exists
      exactly when the dependency graph has no cycle. */
  ghost predicate Ranked(items: seq<Trait>, rank: string -> nat) {
    forall i, d | 0 <= i < |items| && d in ExpandDependencies(items[i], items) && d in NameSet(items) ::
      rank(d) < rank(items[i].name)
  }

  /** Below any undecided trait of a ranked pool there is an undecided trait
      whose dependencies are all decided or outside the pool. */
  lemma MinimalUndecided(r: Run, s: Tally, rank: string -> nat, i: nat) returns (j: nat)
    requires Ranked(r.items, rank) && i < |r.items| && r.items[i].name !in s.decided
    ensures j < |r.items| && r.items[j].name !in s.decided
    ensures CanProcess(true, r.items[j], r.items, s.decided)
    decreases rank(r.items[i].name)
  {
    if CanProcess(true, r.items[i], r.items, s.decided) {
      j := i;
    } else {
      CanProcessMeaning(true, r.items[i], r.items, s.decided);
      var d :| d in ExpandDependencies(r.items[i], r.items) && d !in s.decided && d in NameSet(r.items);
      var k :| 0 <= k < |r.items| && r.items[k].name == d;
      j := MinimalUndecided(r, s, rank, k);
    }
  }

  /** Later steps of a pass never undo a decision. */
  lemma {:induction false} PassUpToMonotone(r: Run, k: nat, m: nat, s: Tally)
    requires k <= m <= |r.items|
    ensures PassUpTo(r, k, s).0.decided <= PassUpTo(r, m, s).0.decided
    decreases m
  {
    if k < m {
      PassUpToMonotone(r, k, m - 1, s);
      StepGrowth(r, r.items[m - 1], PassUpTo(r, m - 1, s).0);
    }
  }

  /** A trait the current engine may process is decided by its step. */
  lemma StepDecidesReady(r: Run, t: Trait, s: Tally)
    requires r.engine == Current && CanProcess(true, t, r.items, s.decided)
    ensures t.name in Step(r, t, s).0.decided
  {
  }

  lemma CanProcessMonotone(t: Trait, items: seq<Trait>, a: set<string>, b: set<string>)
    requires a <= b && CanProcess(true, t, items, a)
    ensures CanProcess(true, t, items, b)
  {
    CanProcessMeaning(true, t, items, a);
    CanProcessMeaning(true, t, items, b);
  }

  /** A trait whose dependencies are decided (or outside the pool) when a
      pass of the current engine starts is decided by the end of that pass. */
  lemma ReadyDecidedByPass(r: Run, s: Tally, j: nat)
    requires r.engine == Current && j < |r.items|
    requires CanProcess(true, r.items[j], r.items, s.decided)
    ensures r.items[j].name in Pass(r, s).0.decided
  {
    PassUpToGrowth(r, j, s);
    var sj := PassUpTo(r, j, s).0;
    CanProcessMonotone(r.items[j], r.items, s.decided, sj.decided);
    StepDecidesReady(r, r.items[j], sj);
    assert PassUpTo(r, j + 1, s).0 == Step(r, r.items[j], sj).0;
    PassUpToMonotone(r, j + 1, |r.items|, s);
  }

  /** Some trait of the pool is undecided. */
  lemma UndecidedIndex(r: Run, s: Tally) returns (i: nat)
    requires s.decided <= NameSet(r.items) && s.decided != NameSet(r.items)
    ensures i < |r.items| && r.items[i].name !in s.decided
  {
    var n :| n in NameSet(r.items) && n !in s.decided;
    i :| 0 <= i < |r.items| && r.items[i].name == n;
  }

  /** In a ranked pool the current engine's pass always makes progress while
      some pool name is undecided. */
  lemma RankedProgress(r: Run, s: Tally, rank: string -> nat)
    requires r.engine == Current && Ranked(r.items, rank)
    requires s.decided <= NameSet(r.items) && s.decided != NameSet(r.items)
    ensures Pass(r, s).1
  {
    var i := UndecidedIndex(r, s);
    var j := MinimalUndecided(r, s, rank, i);
    ReadyDecidedByPass(r, s, j);
    PassUpToGrowth(r, |r.items|, s);
  }

  /** In a ranked pool every pass of the loop progresses, so the fallback
      sweep never runs and every decision keeps the dependency order. */
  lemma {:induction false} RankedLoopKeepsOrdered(r: Run, pass: nat, s: Tally, rank: string -> nat)
    requires r.engine == Current && UniqueNames(r.items) && Ranked(r.items, rank)
    requires Inv(r, s) && Ordered(r, s)
    ensures Ordered(r, Loop(r, pass, s)) && Inv(r, Loop(r, pass, s))
    decreases MaxPasses(r) - pass
  {
    if |s.decided| < |r.items| && pass < MaxPasses(r) {
      UniqueNameCount(r.items);
      RankedProgress(r, s, rank);
      PassUpToKeepsOrdered(r, |r.items|, s);
      PassUpToKeepsInv(r, |r.items|, s);
      RankedLoopKeepsOrdered(r, pass + 1, Pass(r, s).0, rank);
    }
  }

  /** The current engine on an acyclic pool: a trait one of whose
      dependencies succeeded, in this run or outside it, is voided and joins
      neither tier; and a trait in a tier had all of its dependencies
      decided, none of them succeeded. */
  lemma DependentsOfSucceededAreVoided(r: Run, next: nat, rank: string -> nat, i: nat, d: string)
    requires r.engine == Current && UniqueNames(r.items) && Ranked(r.items, rank) && i < |r.items|
    requires d in ExpandDependencies(r.items[i], r.items)
    ensures var res := Resolve(r, next);
      (d in res.succeeded || d in r.ext) ==> r.items[i].name !in res.common && r.items[i].name !in res.rare
    ensures var res := Resolve(r, next);
      r.items[i].name in res.common + res.rare ==> (d in res.decided || d !in NameSet(r.items)) && d !in res.succeeded && d !in r.ext
  {
    StartInv(r, next);
    RankedLoopKeepsOrdered(r, 0, Start(next), rank);
    var res := Resolve(r, next);
    if r.items[i].name in res.common + res.rare {
      assert r.items[i].name in Elems(res.common) + Elems(res.rare);
    }
  }

  /** Some dependency of t names no pool trait. */
  ghost predicate SomeDepOutside(r: Run, t: Trait) {
    exists d | d in ExpandDependencies(t, r.items) :: d !in NameSet(r.items)
  }

  /** The older engine: a step never decides a trait one of whose
      dependencies is missing from the pool. */
  lemma LegacyStepWaits(r: Run, i: nat, s: Tally, t: Trait)
    requires r.engine == Legacy && UniqueNames(r.items) && i < |r.items| && t in r.items
    requires SomeDepOutside(r, r.items[i]) && s.decided <= NameSet(r.items)
    requires r.items[i].name !in s.decided
    ensures r.items[i].name !in Step(r, t, s).0.decided
  {
    if t.name == r.items[i].name {
      var j :| 0 <= j < |r.items| && r.items[j] == t;
      assert j == i;
      CanProcessMeaning(false, t, r.items, s.decided);
    }
  }

  lemma {:induction false} LegacyPassUpToWaits(r: Run, k: nat, s: Tally, i: nat)
    requires r.engine == Legacy && UniqueNames(r.items) && k <= |r.items| && i < |r.items|
    requires SomeDepOutside(r, r.items[i]) && s.decided <= NameSet(r.items)
    requires r.items[i].name !in s.decided
    ensures r.items[i].name !in PassUpTo(r, k, s).0.decided
    ensures PassUpTo(r, k, s).0.decided <= NameSet(r.items)
  {
    if k > 0 {
      LegacyPassUpToWaits(r, k - 1, s, i);
      PassUpToGrowth(r, k, s);
      LegacyStepWaits(r, i, PassUpTo(r, k - 1, s).0, r.items[k - 1]);
    }
  }

  /** The older engine: a trait with a dependency missing from the pool is
      left undecided by every pass; the loop ends with one pass that makes no
      progress, and the fallback sweep that follows is what decides it. The
      result is the fallback applied to a state where the trait was still
      undecided. */
  lemma {:induction false} LegacyMissingDependencyWaits(r: Run, pass: nat, s: Tally, i: nat) returns (before: Tally)
    requires r.engine == Legacy && UniqueNames(r.items) && i < |r.items|
    requires SomeDepOutside(r, r.items[i]) && s.decided <= NameSet(r.items)
    requires r.items[i].name !in s.decided && |s.decided| >= pass
    ensures Loop(r, pass, s) == Fallback(r, before)
    ensures r.items[i].name !in before.decided
    decreases MaxPasses(r) - pass
  {
    UniqueNameCount(r.items);
    StrictSubsetSize(s.decided, NameSet(r.items));
    LegacyPassWaits(r, s, i);
    var (s1, progressed) := Pass(r, s);
    if !progressed {
      before := s1;
    } else {
      before := LegacyMissingDependencyWaits(r, pass + 1, s1, i);
    }
  }

  /** One whole pass of the older engine leaves the trait undecided. */
  lemma LegacyPassWaits(r: Run, s: Tally, i: nat)
    requires r.engine == Legacy && UniqueNames(r.items) && i < |r.items|
    requires SomeDepOutside(r, r.items[i]) && s.decided <= NameSet(r.items)
    requires r.items[i].name !in s.decided
    ensures r.items[i].name !in Pass(r, s).0.decided
    ensures Pass(r, s).0.decided <= NameSet(r.items)
    ensures Pass(r, s).1 ==> |Pass(r, s).0.decided| > |s.decided|
  {
    LegacyPassUpToWaits(r, |r.items|, s, i);
    PassProgress(r, s);
  }

  /** From the start of a run. */
  lemma LegacyResolveFallsBack(r: Run, next: nat, i: nat) returns (before: Tally)
    requires r.engine == Legacy && UniqueNames(r.items) && i < |r.items|
    requires SomeDepOutside(r, r.items[i])
    ensures Resolve(r, next) == Fallback(r, before)
    ensures r.items[i].name !in before.decided
    ensures r.items[i].name in Resolve(r, next).decided
  {
    before := LegacyMissingDependencyWaits(r, 0, Start(next), i);
    ResolveFacts(r, next);
  }
}
