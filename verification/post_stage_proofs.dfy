/** What the stages after resolution keep and guarantee: the tiers stay
    duplicate-free and disjoint, the linkage leaves every breath weapon and
    resistance pair both present or both absent, "Sudden Evolution" records
    at most one form, and the filter removes exactly its names. */
module PostStageProofs {
  import opened Traits
  import opened PostStages

  /** Both tiers duplicate-free and disjoint. */
  ghost predicate Tidy(res: Results) {
    NoDup(res.common) && NoDup(res.rare) && Elems(res.common) !! Elems(res.rare)
  }

  /** The names in either tier. */
  function Members(res: Results): set<string> {
    Elems(res.common) + Elems(res.rare)
  }

  /** A pair agrees when its two names are both in a tier or both absent. */
  predicate Agree(res: Results, p: SyncPair) {
    Has(res, p.bwName) <==> Has(res, p.erName)
  }

  lemma AddAsFacts(res: Results, linked: set<string>, n: string, asCommon: bool)
    requires Tidy(res)
    ensures var (res', linked') := AddAs(res, linked, n, asCommon);
      && Tidy(res') && res.common <= res'.common && res.rare <= res'.rare
      && Members(res') == Members(res) + {n}
      && linked' == linked + (if Has(res, n) then {} else {n})
      && (!Has(res, n) ==> (n in res'.common <==> asCommon) && (n in res'.rare <==> !asCommon))
      && forall x | x != n :: Has(res', x) == Has(res, x)
  {
    ElemsMeaning(res.common);
    ElemsMeaning(res.rare);
    if !Has(res, n) {
      ElemsAppend(res.common, n);
      ElemsAppend(res.rare, n);
      NoDupAppend(res.common, n);
      NoDupAppend(res.rare, n);
    }
  }

  /** Two different pairs share no name. */
  lemma PairsNameDisjoint(items: seq<Trait>, ps: seq<SyncPair>, a: nat, b: nat)
    requires PairsWellFormed(items, ps) && a < |ps| && b < |ps| && a != b
    ensures ps[a].bwName != ps[b].bwName && ps[a].erName != ps[b].erName
    ensures ps[a].bwName != ps[b].erName && ps[a].erName != ps[b].bwName
  {
    assert ps[a] in ps && ps[b] in ps;
    assert ps[a].element != ps[b].element;
    HeadsDiffer(ps[a].bwName, ps[b].erName);
    HeadsDiffer(ps[b].bwName, ps[a].erName);
  }

  /** No name belongs to two pairs. */
  ghost predicate NamesDistinct(ps: seq<SyncPair>) {
    forall a, b | 0 <= a < |ps| && 0 <= b < |ps| && a != b ::
      && ps[a].bwName != ps[b].bwName && ps[a].erName != ps[b].erName
      && ps[a].bwName != ps[b].erName
  }

  /** The names of the first k pairs. */
  ghost function VisitedNames(ps: seq<SyncPair>, k: nat): set<string>
    requires k <= |ps|
  {
    if k == 0 then {} else VisitedNames(ps, k - 1) + {ps[k - 1].bwName, ps[k - 1].erName}
  }

  /** A visited name belongs to one of the first k pairs. */
  lemma {:induction false} VisitedWitness(ps: seq<SyncPair>, k: nat, x: string)
    requires k <= |ps| && x in VisitedNames(ps, k)
    ensures exists a | 0 <= a < k :: x == ps[a].bwName || x == ps[a].erName
  {
    if x !in {ps[k - 1].bwName, ps[k - 1].erName} {
      VisitedWitness(ps, k - 1, x);
    }
  }

  lemma WellFormedNamesDistinct(items: seq<Trait>, ps: seq<SyncPair>)
    requires PairsWellFormed(items, ps)
    ensures NamesDistinct(ps)
  {
    forall a, b | 0 <= a < |ps| && 0 <= b < |ps| && a != b
      ensures ps[a].bwName != ps[b].bwName && ps[a].erName != ps[b].erName && ps[a].bwName != ps[b].erName
    {
      PairsNameDisjoint(items, ps, a, b);
    }
  }

  /** What the pair loop keeps after visiting the first k pairs from res0:
      it only appended, the tiers are tidy, the linked names are exactly the
      names added, each a name of a visited pair placed in `common` exactly
      when its probability is at least 1, and every visited pair is linked. */
  ghost predicate SyncInv(items: seq<Trait>, ps: seq<SyncPair>, k: nat, res0: Results, res: Results, linked: set<string>)
    requires k <= |ps|
  {
    && Tidy(res) && res0.common <= res.common && res0.rare <= res.rare
    && linked == Members(res) - Members(res0)
    && (forall x | x in linked :: x in NameSet(items) && (x in res.common <==> AsCommon(items, x)))
    && linked <= VisitedNames(ps, k)
    && AllLinked(res0, res, ps, k)
  }

  /** Pair p is linked from res0 to res: each of its names is present in res
      exactly when either of them was present in res0. */
  predicate Linked(res0: Results, res: Results, p: SyncPair) {
    && Has(res, p.bwName) == (Has(res0, p.bwName) || Has(res0, p.erName))
    && Has(res, p.erName) == (Has(res0, p.bwName) || Has(res0, p.erName))
  }

  /** The first k pairs are linked. */
  ghost predicate AllLinked(res0: Results, res: Results, ps: seq<SyncPair>, k: nat)
    requires k <= |ps|
  {
    k == 0 || (AllLinked(res0, res, ps, k - 1) && Linked(res0, res, ps[k - 1]))
  }

  lemma {:induction false} AllLinkedMeaning(res0: Results, res: Results, ps: seq<SyncPair>, k: nat)
    requires k <= |ps|
    ensures AllLinked(res0, res, ps, k) <==> forall a | 0 <= a < k :: Linked(res0, res, ps[a])
  {
    if k > 0 {
      AllLinkedMeaning(res0, res, ps, k - 1);
    }
  }

  /** A name is present in one tier list or the other exactly when it is a member. */
  lemma HasMembers(res: Results, x: string)
    ensures Has(res, x) <==> x in Members(res)
  {
    ElemsMeaning(res.common);
    ElemsMeaning(res.rare);
  }

  /** A name that was not linked is present exactly when it was at the start. */
  lemma UnlinkedKept(res0: Results, res: Results, linked: set<string>, x: string)
    requires res0.common <= res.common && res0.rare <= res.rare
    requires linked == Members(res) - Members(res0) && x !in linked
    ensures Has(res, x) == Has(res0, x)
  {
    HasMembers(res0, x);
    HasMembers(res, x);
    ElemsPrefix(res0.common, res.common);
    ElemsPrefix(res0.rare, res.rare);
  }

  /** The names of pair k belong to none of the first j pairs, j <= k. */
  lemma {:induction false} NotVisited(ps: seq<SyncPair>, j: nat, k: nat)
    requires j <= k < |ps| && NamesDistinct(ps)
    ensures ps[k].bwName !in VisitedNames(ps, j) && ps[k].erName !in VisitedNames(ps, j)
  {
    if j > 0 {
      NotVisited(ps, j - 1, k);
    }
  }

  /** Appending x, a name of pair k that is in no tier, keeps everything
      SyncInv says except that x is now linked, changes the presence of x
      alone, and keeps the first k pairs linked. */
  lemma AddAsKeeps(items: seq<Trait>, ps: seq<SyncPair>, k: nat, res0: Results, res: Results, linked: set<string>, x: string)
    requires k < |ps| && PairsInPool(items, ps) && NamesDistinct(ps)
    requires x == ps[k].bwName || x == ps[k].erName
    ensures SyncInv(items, ps, k, res0, res, linked) && !Has(res, x) ==>
      var (res', linked') := AddAs(res, linked, x, AsCommon(items, x));
      && Tidy(res') && res0.common <= res'.common && res0.rare <= res'.rare
      && linked' == Members(res') - Members(res0)
      && (forall y | y in linked' :: y in NameSet(items) && (y in res'.common <==> AsCommon(items, y)))
      && linked' == linked + {x}
      && (forall y | y != x :: Has(res', y) == Has(res, y)) && Has(res', x)
      && AllLinked(res0, res', ps, k)
  {
    if !(SyncInv(items, ps, k, res0, res, linked) && !Has(res, x)) {
      return;
    }
    assert ps[k] in ps;
    AddAsFacts(res, linked, x, AsCommon(items, x));
    ElemsMeaning(res.common);
    ElemsMeaning(res.rare);
    ElemsMeaning(res0.common);
    ElemsMeaning(res0.rare);
    var (res', linked') := AddAs(res, linked, x, AsCommon(items, x));
    assert x !in Members(res);
    assert Members(res0) <= Members(res) by {
      ElemsPrefix(res0.common, res.common);
      ElemsPrefix(res0.rare, res.rare);
    }
    AllLinkedKept(res0, ps, k, res, res', x);
  }

  /** Adding x, a name of pair k, keeps the first k pairs linked. */
  lemma AllLinkedKept(res0: Results, ps: seq<SyncPair>, k: nat, res1: Results, res2: Results, x: string)
    requires k < |ps| && NamesDistinct(ps)
    requires x == ps[k].bwName || x == ps[k].erName
    requires forall y | y != x :: Has(res2, y) == Has(res1, y)
    requires AllLinked(res0, res1, ps, k)
    ensures AllLinked(res0, res2, ps, k)
  {
    AllLinkedMeaning(res0, res1, ps, k);
    forall a | 0 <= a < k ensures Linked(res0, res2, ps[a]) {
      assert ps[a].bwName != x && ps[a].erName != x;
    }
    AllLinkedMeaning(res0, res2, ps, k);
  }

  lemma ElemsPrefix(a: seq<string>, b: seq<string>)
    requires a <= b
    ensures Elems(a) <= Elems(b)
  {
    assert forall i | 0 <= i < |a| :: a[i] == b[i];
  }

  /** The n-th iteration of the pair loop keeps SyncInv: pair n - 1 becomes
      linked, and only its names can be added. */
  lemma SyncStepKeeps(items: seq<Trait>, ps: seq<SyncPair>, n: nat, res0: Results, res: Results, linked: set<string>)
    requires 0 < n <= |ps| && PairsInPool(items, ps) && NamesDistinct(ps)
    ensures SyncInv(items, ps, n - 1, res0, res, linked) ==>
      var next := SyncStep(items, res, linked, ps[n - 1]);
      SyncInv(items, ps, n, res0, next.0, next.1)
  {
    var k := n - 1;
    if !SyncInv(items, ps, k, res0, res, linked) {
      return;
    }
    var p := ps[k];
    NotVisited(ps, k, k);
    UnlinkedKept(res0, res, linked, p.bwName);
    UnlinkedKept(res0, res, linked, p.erName);
    if Has(res, p.bwName) && !Has(res, p.erName) {
      AddAsKeeps(items, ps, k, res0, res, linked, p.erName);
    } else if Has(res, p.erName) && !Has(res, p.bwName) {
      AddAsKeeps(items, ps, k, res0, res, linked, p.bwName);
    }
  }

  /** The n-th iteration, stated on the loop's own states. */
  lemma SyncUpToStep(items: seq<Trait>, ps: seq<SyncPair>, n: nat, res0: Results)
    requires 0 < n <= |ps| && PairsInPool(items, ps) && NamesDistinct(ps)
    ensures var before := SyncUpTo(items, ps, n - 1, res0);
      SyncInv(items, ps, n - 1, res0, before.0, before.1) ==>
      SyncInv(items, ps, n, res0, SyncUpTo(items, ps, n, res0).0, SyncUpTo(items, ps, n, res0).1)
  {
    var before := SyncUpTo(items, ps, n - 1, res0);
    var next := SyncStep(items, before.0, before.1, ps[n - 1]);
    SyncStepKeeps(items, ps, n, res0, before.0, before.1);
    assert SyncUpTo(items, ps, n, res0) == next;
    SyncInvSubst(items, ps, n, res0, next, SyncUpTo(items, ps, n, res0));
  }

  /** The pair loop over the first n pairs keeps SyncInv from its start. */
  lemma {:induction false} SyncUpToFacts(items: seq<Trait>, ps: seq<SyncPair>, n: nat, res: Results)
    requires n <= |ps| && PairsInPool(items, ps) && NamesDistinct(ps) && Tidy(res)
    ensures SyncInv(items, ps, n, res, SyncUpTo(items, ps, n, res).0, SyncUpTo(items, ps, n, res).1)
  {
    if n == 0 {
      SyncInvStart(items, ps, res);
    } else {
      SyncUpToFacts(items, ps, n - 1, res);
      SyncUpToStep(items, ps, n, res);
    }
  }

  /** SyncInv depends on the loop state only through its value. */
  lemma SyncInvSubst(items: seq<Trait>, ps: seq<SyncPair>, n: nat, res0: Results, a: (Results, set<string>), b: (Results, set<string>))
    requires n <= |ps|
    ensures a == b && SyncInv(items, ps, n, res0, a.0, a.1) ==> SyncInv(items, ps, n, res0, b.0, b.1)
  {
  }

  /** Before the first pair nothing is linked. */
  lemma SyncInvStart(items: seq<Trait>, ps: seq<SyncPair>, res: Results)
    requires Tidy(res)
    ensures SyncInv(items, ps, 0, res, res, {})
  {
    assert Members(res) - Members(res) == {};
  }

  /** Every linked name is a name of a linked pair whose other name was
      already present. */
  lemma LinkedPartners(res0: Results, res: Results, linked: set<string>, ps: seq<SyncPair>)
    requires linked <= VisitedNames(ps, |ps|) && linked == Members(res) - Members(res0)
    requires forall a | 0 <= a < |ps| :: Linked(res0, res, ps[a])
    ensures forall x | x in linked :: exists p | p in ps ::
      (x == p.bwName && Has(res0, p.erName)) || (x == p.erName && Has(res0, p.bwName))
  {
    forall x | x in linked
      ensures exists p | p in ps :: (x == p.bwName && Has(res0, p.erName)) || (x == p.erName && Has(res0, p.bwName))
    {
      VisitedWitness(ps, |ps|, x);
      var a :| 0 <= a < |ps| && (x == ps[a].bwName || x == ps[a].erName);
      assert Linked(res0, res, ps[a]);
      HasMembers(res0, x);
      HasMembers(res, x);
      assert ps[a] in ps;
    }
  }

  /** `applySynchronousElement`: without "Synchronous Element" in the pool
      nothing changes and nothing is linked. With it, the tiers are only
      appended to and stay tidy, the linked names are exactly the names added,
      each one a breath weapon or resistance of the pool placed in `common`
      exactly when its probability is at least 1 and whose partner was
      already present; afterwards each name of a pair is present exactly when
      either name of that pair was present before, so every pair agrees and a
      pair with neither name stays absent. */
  lemma SynchronizeFacts(items: seq<Trait>, res: Results)
    requires Tidy(res)
    ensures var (res', linked) := Synchronize(items, res);
      && (SYNCHRONOUS_ELEMENT !in NameSet(items) ==> res' == res && linked == {})
      && Tidy(res') && res.common <= res'.common && res.rare <= res'.rare
      && linked == Members(res') - Members(res)
      && (forall x | x in linked :: x in NameSet(items) && (x in res'.common <==> AsCommon(items, x)))
      && (forall x | x in linked ::
            Capture(BREATH_WEAPON, x).Some? || Capture(ELEMENTAL_RESISTANCE, x).Some?)
      && (forall x | x in linked :: exists p | p in SyncPairs(items) ::
            (x == p.bwName && Has(res, p.erName)) || (x == p.erName && Has(res, p.bwName)))
      && (SYNCHRONOUS_ELEMENT in NameSet(items) ==> forall p | p in SyncPairs(items) ::
            && Has(res', p.bwName) == (Has(res, p.bwName) || Has(res, p.erName))
            && Has(res', p.erName) == (Has(res, p.bwName) || Has(res, p.erName)))
      && (SYNCHRONOUS_ELEMENT in NameSet(items) ==> forall p | p in SyncPairs(items) :: Agree(res', p))
  {
    if SYNCHRONOUS_ELEMENT in NameSet(items) {
      SyncPairsFacts(items);
      var ps := SyncPairs(items);
      WellFormedNamesDistinct(items, ps);
      SyncUpToFacts(items, ps, |ps|, res);
      var (res', linked) := SyncUpTo(items, ps, |ps|, res);
      AllLinkedMeaning(res, res', ps, |ps|);
      LinkedPartners(res, res', linked, ps);
    } else {
      ElemsMeaning(res.common);
      ElemsMeaning(res.rare);
    }
  }

  /** `prob2 ?? 0` */
  function DragonProb(se: Trait): real {
    match se.prob2 case Some(p) => p case None => 0.0
  }

  /** `applySuddenEvolutionRoll`: `common` is untouched; `rare` gains at most
      "Sudden Evolution"; the notes hold at most one entry, keyed "Sudden
      Evolution", and hold one exactly when a form was drawn, in which case
      "Sudden Evolution" is in a tier; "Dragon" wins on the first draw below
      `prob2 ?? 0`, "Dragonkin" on a second draw below the effective
      probability; one draw is used for "Dragon", two otherwise, none without
      the trait. */
  lemma EvolutionFacts(items: seq<Trait>, res: Results, draws: Draws, next: nat)
    requires Tidy(res)
    ensures var e := EvolutionRoll(items, res, draws, next);
      && Tidy(e.res) && e.res.common == res.common && res.rare <= e.res.rare
      && Members(e.res) <= Members(res) + {SUDDEN_EVOLUTION}
      && e.notes.Keys <= {SUDDEN_EVOLUTION}
      && (SUDDEN_EVOLUTION in e.notes ==> Has(e.res, SUDDEN_EVOLUTION))
      && (SUDDEN_EVOLUTION !in e.notes ==> e.res == res)
    ensures var e := EvolutionRoll(items, res, draws, next);
      match FirstNamed(items, SUDDEN_EVOLUTION)
      case None => e.notes == map[] && e.next == next
      case Some(se) =>
        && (SUDDEN_EVOLUTION in e.notes && e.notes[SUDDEN_EVOLUTION] == Dragon <==> draws(next) < DragonProb(se))
        && (SUDDEN_EVOLUTION in e.notes && e.notes[SUDDEN_EVOLUTION] == Dragonkin <==>
              draws(next) >= DragonProb(se) && draws(next + 1) < EffectiveProb(se))
        && e.next == next + (if draws(next) < DragonProb(se) then 1 else 2)
  {
    ElemsMeaning(res.common);
    ElemsMeaning(res.rare);
    if !Has(res, SUDDEN_EVOLUTION) {
      ElemsAppend(res.rare, SUDDEN_EVOLUTION);
      NoDupAppend(res.rare, SUDDEN_EVOLUTION);
    }
  }

  /** `filterResults` keeps the tiers tidy and removes exactly its names:
      "Synchronous Element" from both tiers, "Diversify:" names and "Double
      Event" from `rare` only. */
  lemma FilterFacts(res: Results)
    requires Tidy(res)
    ensures Tidy(Filter(res))
    ensures forall x :: x in Filter(res).common <==> x in res.common && x != SYNCHRONOUS_ELEMENT
    ensures forall x :: x in Filter(res).rare <==>
      x in res.rare && !(DIVERSIFY <= x) && x != SYNCHRONOUS_ELEMENT && x != DOUBLE_EVENT
  {
    var f := Filter(res);
    WhereKeepsNoDup(res.common, n => n != SYNCHRONOUS_ELEMENT);
    WhereKeepsNoDup(res.rare, n => !(DIVERSIFY <= n));
    WhereKeepsNoDup(Where(res.rare, n => !(DIVERSIFY <= n)), n => n != SYNCHRONOUS_ELEMENT);
    WhereKeepsNoDup(Where(Where(res.rare, n => !(DIVERSIFY <= n)), n => n != SYNCHRONOUS_ELEMENT), n => n != DOUBLE_EVENT);
    ElemsMeaning(res.common);
    ElemsMeaning(res.rare);
    ElemsMeaning(f.common);
    ElemsMeaning(f.rare);
  }
}
