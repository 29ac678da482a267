/** `mergeHalfboonsRespectRaceGuarantee` (utils.js:138-158, and its copy at
    utils/renderer.js:141-161): the selected "halfboons" become rolls at 0.5
    in a kobold's boon pool, unless the race guaranteed them. The JavaScript
    Map from names to traits keeps its keys in insertion order; here it is
    the sequence of its values, each keyed by its own name. */
module Halfboons {
  import opened Traits
  import opened RaceHooks

  /** `byName.set(t.name, t)`: an existing key keeps its position and takes
      the new value, a new key goes to the end. */
  function Put(m: seq<Trait>, t: Trait): (r: seq<Trait>)
    ensures t.name in NameSet(m) ==> |r| == |m|
    ensures t.name !in NameSet(m) ==> r == m + [t]
  {
    if t.name in NameSet(m) then SetFirst(m, t.name, t) else m + [t]
  }

  /** `new Map(pool.map(b => [b.name, b]))`, as the sequence of its values. */
  function FromPool(pool: seq<Trait>): seq<Trait> {
    if pool == [] then [] else Put(FromPool(pool[..|pool| - 1]), pool[|pool| - 1])
  }

  /** The copy that replaces a pool entry: biased to 0.5, same base `prob`. */
  function HalfRoll(t: Trait): Trait {
    t.(biased := Some(0.5))
  }

  /** The copy of a halfboon that is not yet in the pool: biased to 0.5, its
      base `prob` kept, or 0.5 when it has none. */
  function Added(src: Trait): Trait {
    src.(biased := Some(0.5), prob := Some(match src.prob case Some(p) => p case None => 0.5))
  }

  /** The body of the `forEach` for one selected halfboon. */
  function MergeOne(m: seq<Trait>, src: Trait): seq<Trait> {
    match FirstNamed(m, src.name)
    case Some(existing) => if existing.guaranteedByRace then m else Put(m, HalfRoll(existing))
    case None => Put(m, Added(src))
  }

  /** The `forEach` over the halfboons `hs`, starting from the Map `m`. */
  function MergeAll(m: seq<Trait>, hs: seq<Trait>): seq<Trait> {
    if hs == [] then m else MergeOne(MergeAll(m, hs[..|hs| - 1]), hs[|hs| - 1])
  }

  function Merge(pool: seq<Trait>, half: seq<Trait>): seq<Trait> {
    MergeAll(FromPool(pool), half)
  }

  /** `mergeHalfboonsRespectRaceGuarantee`: builds the Map, updates it once
      per selected halfboon, returns its values; neither input changes. */
  method MergeHalfboonsRespectRaceGuarantee(pool: seq<Trait>, half: seq<Trait>) returns (merged: seq<Trait>)
    ensures merged == Merge(pool, half)
  {
    var byName: seq<Trait> := [];
    for i := 0 to |pool|
      invariant byName == FromPool(pool[..i])
    {
      assert pool[..i + 1][..i] == pool[..i];
      byName := Put(byName, pool[i]);
    }
    assert pool[..|pool|] == pool;
    for j := 0 to |half|
      invariant byName == MergeAll(FromPool(pool), half[..j])
    {
      assert half[..j + 1][..j] == half[..j];
      var src := half[j];
      var existing := FirstNamed(byName, src.name);
      if existing.Some? {
        if !existing.value.guaranteedByRace {
          byName := Put(byName, HalfRoll(existing.value));
        }
      } else {
        byName := Put(byName, Added(src));
      }
    }
    assert half[..|half|] == half;
    merged := byName;
  }

  // ---- an independent description of the result ----

  /** The names of `half` that are not pool names, each once, in the order
      of their first selection. */
  function NewNames(pool: seq<Trait>, half: seq<Trait>): seq<string> {
    if half == [] then []
    else
      var init := half[..|half| - 1];
      var n := half[|half| - 1].name;
      NewNames(pool, init) + (if n in NameSet(pool) || n in NameSet(init) then [] else [n])
  }

  /** The entry the merged pool holds under name `n`: a pool entry stays as it
      is when its race guaranteed it or it was not selected, and is otherwise
      biased to 0.5; a selected name the pool lacks is the 0.5 copy of its
      first selection. */
  function Expected(pool: seq<Trait>, half: seq<Trait>, n: string): Option<Trait> {
    match FirstNamed(pool, n)
    case Some(e) => Some(if n in NameSet(half) && !e.guaranteedByRace then HalfRoll(e) else e)
    case None => match FirstNamed(half, n) case Some(src) => Some(Added(src)) case None => None
  }

  /** A pool with unique names is its own Map. */
  lemma {:induction false} FromUniquePool(pool: seq<Trait>)
    requires UniqueNames(pool)
    ensures FromPool(pool) == pool
  {
    if pool != [] {
      var init := pool[..|pool| - 1];
      assert UniqueNames(init);
      FromUniquePool(init);
      assert pool[|pool| - 1].name !in NameSet(init);
      assert init + [pool[|pool| - 1]] == pool;
    }
  }

  /** What `Put` does to the entry each name finds, and to the names. */
  lemma PutFacts(m: seq<Trait>, t: Trait, n: string)
    requires UniqueNames(m)
    ensures UniqueNames(Put(m, t))
    ensures NameSet(Put(m, t)) == NameSet(m) + {t.name}
    ensures FirstNamed(Put(m, t), n) == if n == t.name then Some(t) else FirstNamed(m, n)
    ensures t.name in NameSet(m) ==> forall i | 0 <= i < |m| :: Put(m, t)[i].name == m[i].name
  {
    if t.name in NameSet(m) {
      SetFirstFacts(m, t.name, t, n);
      PutKeepsPositions(m, t);
    } else {
      FirstNamedAppend(m, t, n);
      AppendUnique(m, t);
    }
  }

  /** Overwriting a key leaves every name where it was. */
  lemma PutKeepsPositions(m: seq<Trait>, t: Trait)
    requires t.name in NameSet(m)
    ensures forall i | 0 <= i < |m| :: Put(m, t)[i].name == m[i].name
  {
    var k := IndexOfName(m, t.name).value;
    var r := Put(m, t);
    assert r == m[k := t];
    forall i | 0 <= i < |m| ensures r[i].name == m[i].name {
      if i == k { assert r[i] == t; } else { assert r[i] == m[i]; }
    }
  }

  /** The state of the Map once the halfboons `h` are merged. */
  ghost predicate MergedSoFar(pool: seq<Trait>, h: seq<Trait>, m: seq<Trait>) {
    NamedSoFar(pool, h, m) && (forall n :: FirstNamed(m, n) == Expected(pool, h, n))
  }

  /** The names part of that state. */
  ghost predicate NamedSoFar(pool: seq<Trait>, h: seq<Trait>, m: seq<Trait>) {
    && UniqueNames(m)
    && NameSet(m) == NameSet(pool) + NameSet(h)
    && Names(m) == Names(pool) + NewNames(pool, h)
  }

  lemma MergeStartFacts(pool: seq<Trait>)
    requires UniqueNames(pool)
    ensures MergedSoFar(pool, [], pool)
  {
    assert Names(pool) + [] == Names(pool);
  }

  /** One more selected halfboon changes the expectation of its own name
      only; for its own name, an entry already there is kept when guaranteed
      and biased otherwise, and a missing one is the 0.5 copy. */
  lemma ExpectedSnoc(pool: seq<Trait>, h: seq<Trait>, src: Trait, n: string)
    ensures n != src.name ==> Expected(pool, h + [src], n) == Expected(pool, h, n)
    ensures n == src.name && Expected(pool, h, n).Some? ==>
      var e := Expected(pool, h, n).value;
      Expected(pool, h + [src], n) == Some(if e.guaranteedByRace then e else HalfRoll(e))
    ensures n == src.name && Expected(pool, h, n).None? ==> Expected(pool, h + [src], n) == Some(Added(src))
  {
    FirstNamedAppend(h, src, n);
  }

  lemma NewNamesSnoc(pool: seq<Trait>, h: seq<Trait>, src: Trait)
    ensures NewNames(pool, h + [src]) ==
      NewNames(pool, h) + (if src.name in NameSet(pool) || src.name in NameSet(h) then [] else [src.name])
  {
    assert (h + [src])[..|h|] == h;
  }

  /** The step of the `forEach`, for the names of the Map. */
  lemma MergeOneNames(pool: seq<Trait>, h: seq<Trait>, m: seq<Trait>, src: Trait)
    requires NamedSoFar(pool, h, m)
    ensures NamedSoFar(pool, h + [src], MergeOne(m, src))
  {
    if FirstNamed(m, src.name).Some? {
      MergeOneNamesKnown(pool, h, m, src);
    } else {
      MergeOneNamesNew(pool, h, m, src);
    }
  }

  /** The step for a name already in the Map. */
  lemma MergeOneNamesKnown(pool: seq<Trait>, h: seq<Trait>, m: seq<Trait>, src: Trait)
    requires NamedSoFar(pool, h, m) && FirstNamed(m, src.name).Some?
    ensures NamedSoFar(pool, h + [src], MergeOne(m, src))
  {
    NewNamesSnoc(pool, h, src);
    FirstNamedAppend(h, src, src.name);
    var m' := MergeOne(m, src);
    MergeOneKeepsNames(m, src);
    assert NewNames(pool, h) + [] == NewNames(pool, h);
    SnocSet(NameSet(pool), NameSet(h), NameSet(m), NameSet(m'), NameSet(h + [src]), src.name);
  }

  /** The step for a new name. */
  lemma MergeOneNamesNew(pool: seq<Trait>, h: seq<Trait>, m: seq<Trait>, src: Trait)
    requires NamedSoFar(pool, h, m) && FirstNamed(m, src.name).None?
    ensures NamedSoFar(pool, h + [src], MergeOne(m, src))
  {
    NewNamesSnoc(pool, h, src);
    FirstNamedAppend(h, src, src.name);
    var m' := MergeOne(m, src);
    MergeOneAppends(m, src);
    SnocNames(Names(pool), NewNames(pool, h), Names(m), Names(m'), NewNames(pool, h + [src]), [src.name]);
    SnocSet(NameSet(pool), NameSet(h), NameSet(m), NameSet(m'), NameSet(h + [src]), src.name);
  }

  /** Sequence bookkeeping for the step: appending `x` on both sides. */
  lemma SnocNames(a: seq<string>, b: seq<string>, m: seq<string>, m': seq<string>, b': seq<string>, x: seq<string>)
    requires m == a + b && m' == m + x && b' == b + x
    ensures m' == a + b'
  {
  }

  /** Set bookkeeping for the step: adding `x` on both sides. */
  lemma SnocSet(a: set<string>, b: set<string>, m: set<string>, m': set<string>, b': set<string>, x: string)
    requires m == a + b && m' == m + {x} && b' == b + {x}
    ensures m' == a + b'
  {
  }

  /** A name already in the Map keeps every name where it is. */
  lemma MergeOneKeepsNames(m: seq<Trait>, src: Trait)
    requires UniqueNames(m) && FirstNamed(m, src.name).Some?
    ensures UniqueNames(MergeOne(m, src))
    ensures NameSet(MergeOne(m, src)) == NameSet(m) + {src.name}
    ensures Names(MergeOne(m, src)) == Names(m)
  {
    var existing := FirstNamed(m, src.name).value;
    Absorb(NameSet(m), src.name);
    if !existing.guaranteedByRace {
      PutFacts(m, HalfRoll(existing), src.name);
      SameNames(m, Put(m, HalfRoll(existing)));
    }
  }

  lemma Absorb(a: set<string>, x: string)
    requires x in a
    ensures a + {x} == a
  {
  }

  /** Two pools with the same name at every position have the same names. */
  lemma SameNames(a: seq<Trait>, b: seq<Trait>)
    requires |a| == |b| && forall i | 0 <= i < |a| :: a[i].name == b[i].name
    ensures Names(a) == Names(b)
  {
  }

  /** A new name goes to the end of the Map. */
  lemma MergeOneAppends(m: seq<Trait>, src: Trait)
    requires UniqueNames(m) && FirstNamed(m, src.name).None?
    ensures UniqueNames(MergeOne(m, src))
    ensures NameSet(MergeOne(m, src)) == NameSet(m) + {src.name}
    ensures Names(MergeOne(m, src)) == Names(m) + [src.name]
  {
    PutFacts(m, Added(src), src.name);
    assert MergeOne(m, src) == m + [Added(src)];
    assert Names(m + [Added(src)]) == Names(m) + [src.name];
  }

  /** The step of the `forEach`, for the entry one name finds. */
  lemma MergeOneFinds(pool: seq<Trait>, h: seq<Trait>, m: seq<Trait>, src: Trait, n: string)
    requires MergedSoFar(pool, h, m)
    ensures FirstNamed(MergeOne(m, src), n) == Expected(pool, h + [src], n)
  {
    ExpectedSnoc(pool, h, src, n);
    assert FirstNamed(m, src.name) == Expected(pool, h, src.name);
    match FirstNamed(m, src.name)
    case Some(existing) =>
      if !existing.guaranteedByRace {
        PutFacts(m, HalfRoll(existing), n);
      }
    case None =>
      PutFacts(m, Added(src), n);
  }

  lemma MergeOneFacts(pool: seq<Trait>, h: seq<Trait>, m: seq<Trait>, src: Trait, h': seq<Trait>)
    requires MergedSoFar(pool, h, m) && h' == h + [src]
    ensures MergedSoFar(pool, h', MergeOne(m, src))
  {
    MergeOneNames(pool, h, m, src);
    forall n ensures FirstNamed(MergeOne(m, src), n) == Expected(pool, h + [src], n) {
      MergeOneFinds(pool, h, m, src, n);
    }
  }

  lemma {:induction false} MergeAllFacts(pool: seq<Trait>, hs: seq<Trait>)
    requires UniqueNames(pool)
    ensures MergedSoFar(pool, hs, MergeAll(pool, hs))
  {
    if hs == [] {
      MergeStartFacts(pool);
    } else {
      var h := hs[..|hs| - 1];
      MergeAllFacts(pool, h);
      assert hs == h + [hs[|hs| - 1]];
      MergeOneFacts(pool, h, MergeAll(pool, h), hs[|hs| - 1], hs);
    }
  }

  /** The merged pool of a pool with unique names: names stay unique, the
      pool's names keep their positions and the newly selected names follow
      in selection order, and every name finds the entry `Expected` gives. */
  lemma MergeMeaning(pool: seq<Trait>, half: seq<Trait>, n: string)
    requires UniqueNames(pool)
    ensures UniqueNames(Merge(pool, half))
    ensures NameSet(Merge(pool, half)) == NameSet(pool) + NameSet(half)
    ensures Names(Merge(pool, half)) == Names(pool) + NewNames(pool, half)
    ensures FirstNamed(Merge(pool, half), n) == Expected(pool, half, n)
  {
    FromUniquePool(pool);
    MergeAllFacts(pool, half);
  }

  /** The four cases of the merge, name by name: a race-guaranteed entry is
      left alone, another selected pool entry becomes a 0.5 roll with its
      base `prob` kept, a selected name the pool lacks is added as a 0.5 roll
      whose `prob` defaults to 0.5, and an unselected name is untouched. */
  lemma MergeCases(pool: seq<Trait>, half: seq<Trait>, n: string)
    requires UniqueNames(pool)
    ensures var e := FirstNamed(pool, n); var r := FirstNamed(Merge(pool, half), n);
      && (e.Some? && e.value.guaranteedByRace ==> r == e)
      && (n !in NameSet(half) ==> r == e)
      && (e.Some? && !e.value.guaranteedByRace && n in NameSet(half) ==>
            r.Some? && r.value.prob == e.value.prob && EffectiveProb(r.value) == 0.5
            && r.value == e.value.(biased := Some(0.5)))
      && (e.None? && n in NameSet(half) ==>
            r.Some? && EffectiveProb(r.value) == 0.5 && r.value.name == n
            && (FirstNamed(half, n).value.prob.None? ==> r.value.prob == Some(0.5))
            && (FirstNamed(half, n).value.prob.Some? ==> r.value.prob == FirstNamed(half, n).value.prob))
  {
    MergeMeaning(pool, half, n);
  }
}
