/** The current engine, `computeItems` in utils/calculator.js, as the
    imperative code it is: one Resolver object holds the decided set, the
    succeeded set and the two result lists that the helper functions update
    in place, and each method is proved to compute its specification
    function from the Resolution and PostStages modules. */
module Calculator {
  import opened Traits
  import opened Dependencies
  import opened Resolution
  import opened PostStages

  /** What `computeItems` returns: the filtered tiers, the names added by the
      "Synchronous Element" linkage, and the Sudden Evolution notes. */
  datatype Outcome = Outcome(common: seq<string>, rare: seq<string>, linked: set<string>, evolutionNotes: map<string, Form>)

  /** `computeItems` as a function of its inputs: resolution, linkage,
      evolution roll and filter, in that order, threading the draws. */
  function ComputeSpec(items: seq<Trait>, ext: set<string>, draws: Draws, next: nat): (Outcome, nat) {
    var t := Resolve(Run(Current, items, ext, draws), next);
    var (synced, linked) := Synchronize(items, Results(t.common, t.rare));
    var e := EvolutionRoll(items, synced, draws, t.next);
    var f := Filter(e.res);
    (Outcome(f.common, f.rare, linked, e.notes), e.next)
  }

  /** The state one resolution updates in place: `decidedSet`, `succeededSet`,
      `results.common` and `results.rare`, plus the index of the next random
      draw. `run` is what the helpers read and never change. */
  class Resolver {
    const run: Run
    var decided: set<string>
    var succeeded: set<string>
    var common: seq<string>
    var rare: seq<string>
    var next: nat

    function State(): Tally
      reads this
    {
      Tally(decided, succeeded, common, rare, next)
    }

    function Lists(): Results
      reads this
    {
      Results(common, rare)
    }

    constructor (run: Run, next: nat)
      ensures this.run == run && State() == Start(next)
    {
      this.run := run;
      decided, succeeded, common, rare := {}, {}, [], [];
      this.next := next;
    }

    /** `applyRoll` */
    method ApplyRoll(t: Trait)
      modifies this
      ensures State() == Roll(run, t, old(State()))
    {
      if SkipsRoll(run.engine, t) {
        return;
      }
      var p := EffectiveProb(t);
      if p >= 1.0 {
        common := common + [t.name];
        succeeded := succeeded + {t.name};
      } else {
        var x := run.draws(next);
        next := next + 1;
        if x < p {
          rare := rare + [t.name];
          succeeded := succeeded + {t.name};
        }
      }
    }

    /** `processPass`: one sweep over the pool, processing every undecided
      trait whose dependencies are decided. */
    method ProcessPass() returns (progressed: bool)
      modifies this
      ensures (State(), progressed) == Pass(run, old(State()))
    {
      progressed := false;
      for i := 0 to |run.items|
        invariant (State(), progressed) == PassUpTo(run, i, old(State()))
      {
        var it := run.items[i];
        if it.name in decided {
        } else if !CanProcess(AbsentIsDecided(run.engine), it, run.items, decided) {
        } else if AnyDependencySucceeded(it, run.items, succeeded, run.ext) {
          decided := decided + {it.name};
          progressed := true;
        } else {
          ApplyRoll(it);
          decided := decided + {it.name};
          progressed := true;
        }
      }
    }

    /** `cycleFallback`: every undecided trait is rolled, dependencies or not. */
    method CycleFallback()
      modifies this
      ensures State() == Fallback(run, old(State()))
    {
      for i := 0 to |run.items|
        invariant State() == FallbackUpTo(run, i, old(State()))
      {
        var it := run.items[i];
        if it.name !in decided {
          ApplyRoll(it);
          decided := decided + {it.name};
        }
      }
    }

    /** The pass loop of `computeItems`: at most 2N passes, and the first pass
      that makes no progress is followed by one fallback sweep. */
    method ResolveAll()
      modifies this
      ensures State() == Loop(run, 0, old(State()))
    {
      var pass := 0;
      while |decided| < |run.items| && pass < MaxPasses(run)
        invariant Loop(run, 0, old(State())) == Loop(run, pass, State())
        decreases MaxPasses(run) - pass
      {
        var progressed := ProcessPass();
        if !progressed {
          CycleFallback();
          break;
        }
        pass := pass + 1;
      }
    }

    /** `applySynchronousElement` on this resolver's result lists. */
    method ApplySynchronousElement() returns (linked: set<string>)
      modifies this
      ensures (Lists(), linked) == Synchronize(run.items, old(Lists()))
      ensures decided == old(decided) && succeeded == old(succeeded) && next == old(next)
    {
      linked := {};
      if SYNCHRONOUS_ELEMENT !in NameSet(run.items) {
        return;
      }
      var pairs := BuildSynchronousPairs(run.items);
      SyncPairsInPool(run.items);
      if |pairs| == 0 {
        return;
      }
      linked := LinkPairs(pairs);
    }

    /** The pair loop of `applySynchronousElement`: for each pair with one
      name in a tier, the other joins the tier its probability selects. */
    method LinkPairs(pairs: seq<SyncPair>) returns (linked: set<string>)
      requires PairsInPool(run.items, pairs)
      modifies this
      ensures (Lists(), linked) == SyncUpTo(run.items, pairs, |pairs|, old(Lists()))
      ensures decided == old(decided) && succeeded == old(succeeded) && next == old(next)
    {
      linked := {};
      for i := 0 to |pairs|
        invariant (Lists(), linked) == SyncUpTo(run.items, pairs, i, old(Lists()))
        invariant decided == old(decided) && succeeded == old(succeeded) && next == old(next)
      {
        assert pairs[i] in pairs;
        linked := LinkPair(pairs[i], linked);
      }
    }

    /** One iteration of the pair loop. */
    method LinkPair(p: SyncPair, linked: set<string>) returns (linked': set<string>)
      requires p.bwName in NameSet(run.items) && p.erName in NameSet(run.items)
      modifies this
      ensures (Lists(), linked') == SyncStep(run.items, old(Lists()), linked, p)
      ensures decided == old(decided) && succeeded == old(succeeded) && next == old(next)
    {
      linked' := linked;
      var bwIn := Has(Lists(), p.bwName);
      var erIn := Has(Lists(), p.erName);
      if bwIn && !erIn {
        linked' := AddAs(p.erName, AsCommon(run.items, p.erName), linked);
      } else if erIn && !bwIn {
        linked' := AddAs(p.bwName, AsCommon(run.items, p.bwName), linked);
      }
    }

    /** `addAs` */
    method AddAs(name: string, asCommon: bool, linked: set<string>) returns (linked': set<string>)
      modifies this
      ensures (Lists(), linked') == PostStages.AddAs(old(Lists()), linked, name, asCommon)
      ensures decided == old(decided) && succeeded == old(succeeded) && next == old(next)
    {
      linked' := linked;
      if Has(Lists(), name) {
        return;
      }
      if asCommon {
        common := common + [name];
      } else {
        rare := rare + [name];
      }
      linked' := linked' + {name};
    }

    /** `applySuddenEvolutionRoll` on this resolver's result lists. */
    method ApplySuddenEvolutionRoll() returns (notes: map<string, Form>)
      modifies this
      ensures Evolution(Lists(), notes, next) == EvolutionRoll(run.items, old(Lists()), run.draws, old(next))
      ensures decided == old(decided) && succeeded == old(succeeded)
    {
      notes := map[];
      var found := FirstNamed(run.items, SUDDEN_EVOLUTION);
      if found.None? {
        return;
      }
      var se := found.value;
      var pDragon := match se.prob2 case Some(p) => p case None => 0.0;
      var pKin := EffectiveProb(se);
      var form: Option<Form> := None;
      var x := run.draws(next);
      next := next + 1;
      if x < pDragon {
        form := Some(Dragon);
      } else {
        var y := run.draws(next);
        next := next + 1;
        if y < pKin {
          form := Some(Dragonkin);
        }
      }
      if form.Some? {
        if !(SUDDEN_EVOLUTION in rare) && !(SUDDEN_EVOLUTION in common) {
          rare := rare + [SUDDEN_EVOLUTION];
        }
        notes := notes[SUDDEN_EVOLUTION := form.value];
      }
    }
  }

  /** `buildSynchronousPairs`: one loop fills the two element Maps, a second
      walks the breath weapon Map and keeps the elements the resistance Map
      also has. */
  method BuildSynchronousPairs(items: seq<Trait>) returns (pairs: seq<SyncPair>)
    ensures pairs == SyncPairs(items)
  {
    var breathByEl: Assoc := [];
    var resistByEl: Assoc := [];
    for i := 0 to |items|
      invariant breathByEl == ElementMap(items, BREATH_WEAPON, i)
      invariant resistByEl == ElementMap(items, ELEMENTAL_RESISTANCE, i)
    {
      var bw := Capture(BREATH_WEAPON, items[i].name);
      var er := Capture(ELEMENTAL_RESISTANCE, items[i].name);
      if bw.Some? {
        breathByEl := Put(breathByEl, bw.value, items[i].name);
      }
      if er.Some? {
        resistByEl := Put(resistByEl, er.value, items[i].name);
      }
    }
    pairs := [];
    for j := 0 to |breathByEl|
      invariant pairs == PairsUpTo(breathByEl, resistByEl, j)
    {
      var (el, bwName) := breathByEl[j];
      var erName := Get(resistByEl, el);
      if erName.Some? {
        pairs := pairs + [SyncPair(el, bwName, erName.value)];
      }
    }
  }

  /** `computeItems` */
  method ComputeItems(items: seq<Trait>, ext: set<string>, draws: Draws, next: nat) returns (out: Outcome, next': nat)
    ensures (out, next') == ComputeSpec(items, ext, draws, next)
  {
    var r := new Resolver(Run(Current, items, ext, draws), next);
    r.ResolveAll();
    var linked := r.ApplySynchronousElement();
    var notes := r.ApplySuddenEvolutionRoll();
    var filtered := Filter(r.Lists());
    out := Outcome(filtered.common, filtered.rare, linked, notes);
    next' := r.next;
  }
}
