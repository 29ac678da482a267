/** Dependency expansion and the two tests a pass makes before it touches a
    trait (utils/calculator.js:83-101, utils.js:165-183). */
module Dependencies {
  import opened Traits
  import JsText

  /** `items.filter(x => x.name.startsWith(prefix)).map(x => x.name)` */
  function NamesWithPrefix(items: seq<Trait>, prefix: string): seq<string> {
    if items == [] then []
    else
      var last := items[|items| - 1];
      NamesWithPrefix(items[..|items| - 1], prefix) + (if prefix <= last.name then [last.name] else [])
  }

  /** Exactly the pool names that start with the prefix. */
  lemma {:induction false} NamesWithPrefixMeaning(items: seq<Trait>, prefix: string)
    ensures forall n :: n in NamesWithPrefix(items, prefix) ==> exists i :: 0 <= i < |items| && items[i].name == n && prefix <= n
    ensures forall i :: 0 <= i < |items| && prefix <= items[i].name ==> items[i].name in NamesWithPrefix(items, prefix)
  {
    if items != [] {
      var init := items[..|items| - 1];
      NamesWithPrefixMeaning(init, prefix);
      assert forall i :: 0 <= i < |init| ==> init[i] == items[i];
    }
  }

  /** The prefix a wildcard pattern stands for: the first '*' removed, then trimmed. */
  function WildcardPrefix(pattern: string): string {
    JsText.Trim(JsText.RemoveFirst(pattern, '*'))
  }

  /** `expandDependencies`: no pattern (or an empty one) means no dependency,
      a pattern without '*' is one name, a pattern with '*' stands for every
      pool name starting with its prefix. */
  function ExpandDependencies(t: Trait, items: seq<Trait>): seq<string> {
    match t.rolledAfter
    case None => []
    case Some(pattern) =>
      if pattern == "" then []
      else if '*' !in pattern then [pattern]
      else NamesWithPrefix(items, WildcardPrefix(pattern))
  }

  /** What `expandDependencies` means, in both directions. */
  lemma ExpansionMeaning(t: Trait, items: seq<Trait>, d: string)
    ensures t.rolledAfter.None? || t.rolledAfter == Some("") ==> ExpandDependencies(t, items) == []
    ensures t.rolledAfter.Some? && t.rolledAfter.value != "" && '*' !in t.rolledAfter.value ==>
      ExpandDependencies(t, items) == [t.rolledAfter.value]
    ensures t.rolledAfter.Some? && '*' in t.rolledAfter.value ==>
      (d in ExpandDependencies(t, items) <==>
        d in NameSet(items) && WildcardPrefix(t.rolledAfter.value) <= d)
  {
    if t.rolledAfter.Some? && '*' in t.rolledAfter.value {
      NamesWithPrefixMeaning(items, WildcardPrefix(t.rolledAfter.value));
    }
  }

  /** `canProcess`: every dependency is decided. The current engine counts a
      dependency that is not a pool name as decided; the older one does not. */
  predicate CanProcess(absentIsDecided: bool, t: Trait, items: seq<Trait>, decided: set<string>) {
    AllDecided(ExpandDependencies(t, items), absentIsDecided, items, decided)
  }

  /** `deps.every(d => decided.has(d) || !itemNames.has(d))`, the second test
      only for the current engine. */
  predicate AllDecided(deps: seq<string>, absentIsDecided: bool, items: seq<Trait>, decided: set<string>) {
    deps == [] ||
    ((deps[0] in decided || (absentIsDecided && deps[0] !in NameSet(items)))
     && AllDecided(deps[1..], absentIsDecided, items, decided))
  }

  /** `anyDependencySucceeded`: some dependency succeeded in this run or outside it. */
  predicate AnyDependencySucceeded(t: Trait, items: seq<Trait>, succeeded: set<string>, ext: set<string>) {
    AnySucceeded(ExpandDependencies(t, items), succeeded, ext)
  }

  /** `deps.some(d => succeeded.has(d) || externalSucceeded.has(d))` */
  predicate AnySucceeded(deps: seq<string>, succeeded: set<string>, ext: set<string>) {
    deps != [] && (deps[0] in succeeded || deps[0] in ext || AnySucceeded(deps[1..], succeeded, ext))
  }

  /** A trait can be processed exactly when each of its dependencies is
      decided (or, for the current engine, outside the pool). */
  lemma CanProcessMeaning(absentIsDecided: bool, t: Trait, items: seq<Trait>, decided: set<string>)
    ensures CanProcess(absentIsDecided, t, items, decided) <==>
      forall d | d in ExpandDependencies(t, items) :: d in decided || (absentIsDecided && d !in NameSet(items))
  {
    AllDecidedMeaning(ExpandDependencies(t, items), absentIsDecided, items, decided);
  }

  lemma {:induction false} AllDecidedMeaning(deps: seq<string>, absentIsDecided: bool, items: seq<Trait>, decided: set<string>)
    ensures AllDecided(deps, absentIsDecided, items, decided) <==>
      forall d | d in deps :: d in decided || (absentIsDecided && d !in NameSet(items))
  {
    if deps != [] {
      AllDecidedMeaning(deps[1..], absentIsDecided, items, decided);
      assert forall d :: d in deps <==> d == deps[0] || d in deps[1..];
    }
  }

  /** Some dependency succeeded exactly when one of the expanded names is in
      the run's succeeded set or the external one. */
  lemma AnyDependencyMeaning(t: Trait, items: seq<Trait>, succeeded: set<string>, ext: set<string>)
    ensures AnyDependencySucceeded(t, items, succeeded, ext) <==>
      exists d | d in ExpandDependencies(t, items) :: d in succeeded || d in ext
  {
    AnySucceededMeaning(ExpandDependencies(t, items), succeeded, ext);
  }

  lemma {:induction false} AnySucceededMeaning(deps: seq<string>, succeeded: set<string>, ext: set<string>)
    ensures AnySucceeded(deps, succeeded, ext) <==> exists d | d in deps :: d in succeeded || d in ext
  {
    if deps != [] {
      AnySucceededMeaning(deps[1..], succeeded, ext);
      assert forall d :: d in deps <==> d == deps[0] || d in deps[1..];
    }
  }
}

/** The dependency-ordered resolver as functions of its inputs and state: the
    specification the imperative Calculator.Resolver is proved against. The
    current engine (utils/calculator.js) and the older one (utils.js) differ in
    three places, each selected by `engine`. */
module Resolution {
  import opened Traits
  import opened Dependencies

  datatype Engine = Current | Legacy

  /** What one resolution reads and never changes: the engine, the pool, the
      externally succeeded names and the random source. */
  datatype Run = Run(engine: Engine, items: seq<Trait>, ext: set<string>, draws: Draws)

  /** What one resolution changes: the decided and succeeded sets, the two
      tiers, and the index of the next random draw. */
  datatype Tally = Tally(
    decided: set<string>,
    succeeded: set<string>,
    common: seq<string>,
    rare: seq<string>,
    next: nat)

  function Start(next: nat): Tally {
    Tally({}, {}, [], [], next)
  }

  /** Only the current engine leaves "Sudden Evolution" to its own roll. */
  predicate SkipsRoll(engine: Engine, t: Trait) {
    engine == Current && t.name == SUDDEN_EVOLUTION
  }

  /** Only the current engine treats a dependency outside the pool as decided. */
  predicate AbsentIsDecided(engine: Engine) {
    engine == Current
  }

  /** `applyRoll`: a trait of effective probability at least 1 joins `common`
      without a draw; any other trait takes one draw and joins `rare` exactly
      when the draw is below its probability. */
  function Roll(r: Run, t: Trait, s: Tally): (s': Tally)
    ensures s'.decided == s.decided
    ensures SkipsRoll(r.engine, t) ==> s' == s
    ensures !SkipsRoll(r.engine, t) && EffectiveProb(t) >= 1.0 ==>
      s'.common == s.common + [t.name] && s'.rare == s.rare && s'.next == s.next
      && s'.succeeded == s.succeeded + {t.name}
    ensures !SkipsRoll(r.engine, t) && EffectiveProb(t) < 1.0 ==>
      s'.common == s.common && s'.next == s.next + 1
      && (r.draws(s.next) < EffectiveProb(t) ==> s'.rare == s.rare + [t.name] && s'.succeeded == s.succeeded + {t.name})
      && (r.draws(s.next) >= EffectiveProb(t) ==> s'.rare == s.rare && s'.succeeded == s.succeeded)
    ensures EffectiveProb(t) <= 0.0 ==> s'.common == s.common && s'.rare == s.rare && s'.succeeded == s.succeeded
  {
    if SkipsRoll(r.engine, t) then s
    else if EffectiveProb(t) >= 1.0 then
      s.(common := s.common + [t.name], succeeded := s.succeeded + {t.name})
    else if r.draws(s.next) < EffectiveProb(t) then
      s.(rare := s.rare + [t.name], succeeded := s.succeeded + {t.name}, next := s.next + 1)
    else
      s.(next := s.next + 1)
  }

  /** The body of `processPass`'s loop for one trait: the new state and whether
      this trait was newly decided. */
  function Step(r: Run, t: Trait, s: Tally): (Tally, bool) {
    if t.name in s.decided then (s, false)
    else if !CanProcess(AbsentIsDecided(r.engine), t, r.items, s.decided) then (s, false)
    else if AnyDependencySucceeded(t, r.items, s.succeeded, r.ext) then
      (s.(decided := s.decided + {t.name}), true)
    else
      var rolled := Roll(r, t, s);
      (rolled.(decided := rolled.decided + {t.name}), true)
  }

  /** `processPass` over the first k traits of the pool. */
  function PassUpTo(r: Run, k: nat, s: Tally): (Tally, bool)
    requires k <= |r.items|
  {
    if k == 0 then (s, false)
    else
      var (s1, p1) := PassUpTo(r, k - 1, s);
      var (s2, p2) := Step(r, r.items[k - 1], s1);
      (s2, p1 || p2)
  }

  function Pass(r: Run, s: Tally): (Tally, bool) {
    PassUpTo(r, |r.items|, s)
  }

  /** `cycleFallback` over the first k traits: every undecided trait is rolled
      without looking at its dependencies. */
  function FallbackUpTo(r: Run, k: nat, s: Tally): Tally
    requires k <= |r.items|
  {
    if k == 0 then s
    else
      var s1 := FallbackUpTo(r, k - 1, s);
      var t := r.items[k - 1];
      if t.name in s1.decided then s1
      else
        var rolled := Roll(r, t, s1);
        rolled.(decided := rolled.decided + {t.name})
  }

  function Fallback(r: Run, s: Tally): Tally {
    FallbackUpTo(r, |r.items|, s)
  }

  /** The bound on the number of passes: twice the pool size. */
  function MaxPasses(r: Run): nat {
    2 * |r.items|
  }

  /** The main loop from pass number `pass` on. */
  function Loop(r: Run, pass: nat, s: Tally): Tally
    decreases MaxPasses(r) - pass
  {
    if |s.decided| < |r.items| && pass < MaxPasses(r) then
      var (s1, progressed) := Pass(r, s);
      if !progressed then Fallback(r, s1) else Loop(r, pass + 1, s1)
    else s
  }

  /** The whole dependency-ordered resolution, starting at draw `next`. */
  function Resolve(r: Run, next: nat): Tally {
    Loop(r, 0, Start(next))
  }
}
