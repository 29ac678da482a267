/** What each race hook does to a pool with unique names: which names it
    adds and removes, that it leaves every other entry alone, which entries
    it guarantees and how it biases the others. */
module RaceHookProofs {
  import opened Traits
  import opened Data
  import opened DataFacts
  import opened RaceHooks

  /** `s` came from the unique pool `s0` by adding the names `added` and
      removing the names `removed`; every entry of any other name is still
      there, and names stay unique. */
  ghost predicate Reached(s0: seq<Trait>, s: seq<Trait>, added: set<string>, removed: set<string>) {
    && UniqueNames(s)
    && NameSet(s) == (NameSet(s0) - removed) + added
    && KeepsOthers(s0, s, added + removed)
  }

  /** The entry named `n` is pinned to probability 1 by a race. */
  predicate Guaranteed(s: seq<Trait>, n: string) {
    match FirstNamed(s, n)
    case None => false
    case Some(t) => t.guaranteedByRace && EffectiveProb(t) == 1.0
  }

  lemma StartReached(s: seq<Trait>)
    requires UniqueNames(s)
    ensures Reached(s, s, {}, {})
  {
  }

  lemma EnsureStep(s0: seq<Trait>, s: seq<Trait>, added: set<string>, removed: set<string>, source: seq<Trait>, n: string)
    requires Reached(s0, s, added, removed) && n in NameSet(source) && n !in removed
    ensures Reached(s0, EnsureIn(s, source, n).0, added + {n}, removed)
  {
    var s' := EnsureIn(s, source, n).0;
    if n !in NameSet(s) {
      var t := FirstNamed(source, n).value;
      assert s' == s + [t];
      AppendUnique(s, t);
    }
    forall t | t in s0 && t.name !in added + {n} + removed ensures t in s' {
      assert t in s;
    }
  }

  lemma RemoveStep(s0: seq<Trait>, s: seq<Trait>, added: set<string>, removed: set<string>, n: string)
    requires Reached(s0, s, added, removed) && n !in added
    ensures Reached(s0, RemoveNamed(s, n), added, removed + {n})
  {
    var s' := RemoveNamed(s, n);
    RemoveKeepsEntries(s, n);
    RemoveUnique(s, n);
    forall t | t in s0 && t.name !in added + (removed + {n}) ensures t in s' {
      assert t in s;
    }
    RemoveFromReachedNames(NameSet(s0), NameSet(s), added, removed, n);
  }

  /** Dropping a name that was not added from the reached names. */
  lemma RemoveFromReachedNames(names0: set<string>, names: set<string>, added: set<string>, removed: set<string>, n: string)
    requires names == (names0 - removed) + added && n !in added
    ensures names - {n} == (names0 - (removed + {n})) + added
  {
  }

  /** Removing a name from a unique pool removes exactly that name. */
  lemma RemoveUnique(s: seq<Trait>, n: string)
    requires UniqueNames(s)
    ensures UniqueNames(RemoveNamed(s, n)) && NameSet(RemoveNamed(s, n)) == NameSet(s) - {n}
  {
    if n in NameSet(s) {
      var i := IndexOfName(s, n).value;
      assert RemoveNamed(s, n) == s[..i] + s[i + 1..];
      CutNames(s, i);
      CutUnique(s, i);
    }
  }

  /** The entry at index `j` once the one at `i` is cut out. */
  lemma CutAt(s: seq<Trait>, i: nat, j: nat)
    requires i < |s| && j < |s| - 1
    ensures (s[..i] + s[i + 1..])[j] == s[if j < i then j else j + 1]
  {
  }

  /** Cutting out an entry of a unique pool removes exactly its name. */
  lemma CutNames(s: seq<Trait>, i: nat)
    requires UniqueNames(s) && i < |s|
    ensures NameSet(s[..i] + s[i + 1..]) == NameSet(s) - {s[i].name}
  {
    var r := s[..i] + s[i + 1..];
    forall x | x in NameSet(s) && x != s[i].name ensures x in NameSet(r) {
      var j :| 0 <= j < |s| && s[j].name == x;
      if j < i {
        CutAt(s, i, j);
        assert r[j].name == x;
      } else {
        CutAt(s, i, j - 1);
        assert r[j - 1].name == x;
      }
    }
    forall x | x in NameSet(r) ensures x in NameSet(s) && x != s[i].name {
      var j :| 0 <= j < |r| && r[j].name == x;
      CutAt(s, i, j);
    }
  }

  /** Cutting out an entry keeps names unique. */
  lemma CutUnique(s: seq<Trait>, i: nat)
    requires UniqueNames(s) && i < |s|
    ensures UniqueNames(s[..i] + s[i + 1..])
  {
    var r := s[..i] + s[i + 1..];
    forall a, b | 0 <= a < b < |r| ensures r[a].name != r[b].name {
      CutAt(s, i, a);
      CutAt(s, i, b);
    }
  }

  lemma BiasStep(s0: seq<Trait>, s: seq<Trait>, added: set<string>, removed: set<string>, n: string, factor: real)
    requires Reached(s0, s, added, removed) && n in added
    ensures Reached(s0, BiasNamed(s, n, factor), added, removed)
  {
    if n in NameSet(s) {
      SetFirstShape(s, n, BiasTrait(FirstNamed(s, n).value, factor));
    }
  }

  lemma GuaranteeStep(s0: seq<Trait>, s: seq<Trait>, added: set<string>, removed: set<string>, n: string)
    requires Reached(s0, s, added, removed) && n in added && n in NameSet(s)
    ensures Reached(s0, GuaranteeNamed(s, n), added, removed)
    ensures Guaranteed(GuaranteeNamed(s, n), n)
  {
    SetFirstShape(s, n, GuaranteeTrait(FirstNamed(s, n).value));
    SetFirstFinds(s, n, GuaranteeTrait(FirstNamed(s, n).value), n);
  }

  /** Biasing the entry that `ensureInSelection` returned: the pool's own
      entry if it had one, else the table's. */
  lemma BiasedEntry(s: seq<Trait>, source: seq<Trait>, n: string, s': seq<Trait>, factor: real)
    requires n in NameSet(source)
    requires FirstNamed(s', n) == EnsureIn(s, source, n).1
    ensures FirstNamed(BiasNamed(s', n, factor), n) == Some(BiasTrait(EnsureIn(s, source, n).1.value, factor))
  {
    var t := FirstNamed(s', n).value;
    SetFirstFinds(s', n, BiasTrait(t, factor), n);
  }

  // ---- the shapes the hooks share, for any names and any table ----

  /** Ensure `x` and `y`, bias `x`, guarantee `y`: the boons of the
      Cutebold, Roughbold and Dogbold hooks. */
  lemma BiasThenGrant(s: seq<Trait>, src: seq<Trait>, x: string, y: string, f: real,
                      s1: seq<Trait>, s2: seq<Trait>, s3: seq<Trait>, s4: seq<Trait>)
    requires UniqueNames(s) && x != y && x in NameSet(src) && y in NameSet(src)
    requires s1 == EnsureIn(s, src, x).0 && s2 == EnsureIn(s1, src, y).0 && s3 == BiasNamed(s2, x, f)
    requires y in NameSet(s3) && s4 == GuaranteeNamed(s3, y)
    ensures Reached(s, s4, {x, y}, {}) && Guaranteed(s4, y)
  {
    EnsureTwo(s, src, x, y, s1, s2);
    BiasThenGrantTail(s, s2, s3, s4, {x, y}, {}, x, y, f);
  }

  /** The same steps bias the entry of `x` that the first step found. */
  lemma BiasThenGrantEntry(s: seq<Trait>, src: seq<Trait>, x: string, y: string, f: real,
                           s1: seq<Trait>, s2: seq<Trait>, s3: seq<Trait>, s4: seq<Trait>)
    requires x != y && x in NameSet(src)
    requires s1 == EnsureIn(s, src, x).0 && s2 == EnsureIn(s1, src, y).0 && s3 == BiasNamed(s2, x, f)
    requires y in NameSet(s3) && s4 == GuaranteeNamed(s3, y)
    ensures EnsureIn(s, src, x).1.Some? && FirstNamed(s4, x) == Some(BiasTrait(EnsureIn(s, src, x).1.value, f))
  {
    FirstNamedAppendOrSame(s1, s2, x);
    BiasedEntry(s, src, x, s2, f);
    GuaranteeKeepsOther(s3, y, x);
  }

  /** Ensure `x`, then bias it: the drawbacks of the Cutebold and Roughbold
      hooks. */
  lemma EnsureThenBias(s: seq<Trait>, src: seq<Trait>, x: string, f: real, s1: seq<Trait>, s2: seq<Trait>)
    requires UniqueNames(s) && x in NameSet(src)
    requires s1 == EnsureIn(s, src, x).0 && s2 == BiasNamed(s1, x, f)
    ensures Reached(s, s2, {x}, {})
  {
    var none: set<string> := {};
    var xs := {x};
    assert none + {x} == xs;
    StartReached(s);
    EnsureStep(s, s, none, none, src, x);
    BiasStep(s, s1, xs, none, x, f);
  }

  /** Ensure `x`, then guarantee it: the drawbacks of the Werebold and
      Fairybold hooks. */
  lemma EnsureThenGrant(s: seq<Trait>, src: seq<Trait>, x: string, s1: seq<Trait>, s2: seq<Trait>)
    requires UniqueNames(s) && x in NameSet(src)
    requires s1 == EnsureIn(s, src, x).0 && x in NameSet(s1) && s2 == GuaranteeNamed(s1, x)
    ensures Reached(s, s2, {x}, {}) && Guaranteed(s2, x)
  {
    var none: set<string> := {};
    var xs := {x};
    assert none + {x} == xs;
    StartReached(s);
    EnsureStep(s, s, none, none, src, x);
    GuaranteeStep(s, s1, xs, none, x);
  }

  /** Remove `r`, ensure `x`, guarantee `x`: both pools of the Robold hook. */
  lemma RemoveThenGrant(s: seq<Trait>, src: seq<Trait>, r: string, x: string, s1: seq<Trait>, s2: seq<Trait>, s3: seq<Trait>)
    requires UniqueNames(s) && x in NameSet(src) && r != x
    requires s1 == RemoveNamed(s, r) && s2 == EnsureIn(s1, src, x).0 && x in NameSet(s2) && s3 == GuaranteeNamed(s2, x)
    ensures Reached(s, s3, {x}, {r}) && Guaranteed(s3, x)
  {
    var none: set<string> := {};
    var xs := {x};
    var rs := {r};
    assert none + {x} == xs;
    assert none + {r} == rs;
    StartReached(s);
    RemoveStep(s, s, none, none, r);
    EnsureStep(s, s1, none, rs, src, x);
    GuaranteeStep(s, s2, xs, rs, x);
  }

  /** Ensure `x`, `y` and `z`, then guarantee all three: the boons of the
      Fairybold hook. */
  lemma GrantThree(s: seq<Trait>, src: seq<Trait>, x: string, y: string, z: string,
                   s1: seq<Trait>, s2: seq<Trait>, s3: seq<Trait>, s4: seq<Trait>, s5: seq<Trait>, s6: seq<Trait>)
    requires UniqueNames(s) && x in NameSet(src) && y in NameSet(src) && z in NameSet(src)
    requires x != y && y != z && x != z
    requires s1 == EnsureIn(s, src, x).0 && s2 == EnsureIn(s1, src, y).0 && s3 == EnsureIn(s2, src, z).0
    requires x in NameSet(s3) && s4 == GuaranteeNamed(s3, x)
    requires y in NameSet(s4) && s5 == GuaranteeNamed(s4, y)
    requires z in NameSet(s5) && s6 == GuaranteeNamed(s5, z)
    ensures Reached(s, s6, {x, y, z}, {})
    ensures Guaranteed(s6, x) && Guaranteed(s6, y) && Guaranteed(s6, z)
  {
    EnsureThree(s, src, x, y, z, s1, s2, s3);
    GrantThreeTail(s, s3, s4, s5, s6, {x, y, z}, x, y, z);
  }

  /** Ensure `x`, `y`, then `z`. */
  lemma EnsureThree(s: seq<Trait>, src: seq<Trait>, x: string, y: string, z: string, s1: seq<Trait>, s2: seq<Trait>, s3: seq<Trait>)
    requires UniqueNames(s) && x in NameSet(src) && y in NameSet(src) && z in NameSet(src)
    requires s1 == EnsureIn(s, src, x).0 && s2 == EnsureIn(s1, src, y).0 && s3 == EnsureIn(s2, src, z).0
    ensures Reached(s, s3, {x, y, z}, {})
  {
    var xy := {x, y};
    assert xy + {z} == {x, y, z};
    EnsureTwo(s, src, x, y, s1, s2);
    EnsureStep(s, s2, xy, {}, src, z);
  }

  /** Ensure `x`, then `y`. */
  lemma EnsureTwo(s: seq<Trait>, src: seq<Trait>, x: string, y: string, s1: seq<Trait>, s2: seq<Trait>)
    requires UniqueNames(s) && x in NameSet(src) && y in NameSet(src)
    requires s1 == EnsureIn(s, src, x).0 && s2 == EnsureIn(s1, src, y).0
    ensures Reached(s, s2, {x, y}, {})
  {
    var none: set<string> := {};
    var xs := {x};
    var xy := {x, y};
    assert none + {x} == xs;
    assert xs + {y} == xy;
    StartReached(s);
    EnsureStep(s, s, none, none, src, x);
    EnsureStep(s, s1, xs, none, src, y);
  }

  lemma GrantThreeTail(s: seq<Trait>, s3: seq<Trait>, s4: seq<Trait>, s5: seq<Trait>, s6: seq<Trait>,
                       added: set<string>, x: string, y: string, z: string)
    requires Reached(s, s3, added, {}) && x in added && y in added && z in added
    requires x != y && y != z && x != z
    requires x in NameSet(s3) && s4 == GuaranteeNamed(s3, x)
    requires y in NameSet(s4) && s5 == GuaranteeNamed(s4, y)
    requires z in NameSet(s5) && s6 == GuaranteeNamed(s5, z)
    ensures Reached(s, s6, added, {})
    ensures Guaranteed(s6, x) && Guaranteed(s6, y) && Guaranteed(s6, z)
  {
    GuaranteeStep(s, s3, added, {}, x);
    GuaranteeStep(s, s4, added, {}, y);
    GuaranteeStep(s, s5, added, {}, z);
    GuaranteeKeepsOther(s4, y, x);
    GuaranteeKeepsOther(s5, z, x);
    GuaranteeKeepsOther(s5, z, y);
  }

  /** Remove `r`, ensure `z`, bias `x`, guarantee `y`: the rest of the
      boons of the Werebold hook. */
  lemma RemoveEnsureBiasGrant(s: seq<Trait>, src: seq<Trait>, x: string, y: string, r: string, z: string, f: real,
                              s2: seq<Trait>, s3: seq<Trait>, s4: seq<Trait>, s5: seq<Trait>, s6: seq<Trait>)
    requires Reached(s, s2, {x, y}, {}) && z in NameSet(src)
    requires r != x && r != y && r != z
    requires s3 == RemoveNamed(s2, r) && s4 == EnsureIn(s3, src, z).0 && s5 == BiasNamed(s4, x, f)
    requires y in NameSet(s5) && s6 == GuaranteeNamed(s5, y)
    ensures Reached(s, s6, {x, y, z}, {r}) && Guaranteed(s6, y)
  {
    RemoveThenEnsure(s, src, s2, s3, s4, {x, y}, r, z, {x, y, z});
    BiasThenGrantTail(s, s4, s5, s6, {x, y, z}, {r}, x, y, f);
  }

  /** Remove `r`, then ensure `z`. */
  lemma RemoveThenEnsure(s: seq<Trait>, src: seq<Trait>, s2: seq<Trait>, s3: seq<Trait>, s4: seq<Trait>,
                         added: set<string>, r: string, z: string, added': set<string>)
    requires r !in added && r != z && z in NameSet(src)
    requires s3 == RemoveNamed(s2, r) && s4 == EnsureIn(s3, src, z).0 && added' == added + {z}
    ensures Reached(s, s2, added, {}) ==> Reached(s, s4, added', {r})
  {
    if !Reached(s, s2, added, {}) {
      return;
    }
    var rs := {r};
    assert {} + {r} == rs;
    RemoveStep(s, s2, added, {}, r);
    EnsureStep(s, s3, added, rs, src, z);
  }

  /** Bias `x`, then guarantee `y`. */
  lemma BiasThenGrantTail(s: seq<Trait>, s4: seq<Trait>, s5: seq<Trait>, s6: seq<Trait>,
                          added: set<string>, removed: set<string>, x: string, y: string, f: real)
    requires x in added && y in added
    requires s5 == BiasNamed(s4, x, f) && y in NameSet(s5) && s6 == GuaranteeNamed(s5, y)
    ensures Reached(s, s4, added, removed) ==> Reached(s, s6, added, removed) && Guaranteed(s6, y)
  {
    if !Reached(s, s4, added, removed) {
      return;
    }
    BiasStep(s, s4, added, removed, x, f);
    GuaranteeStep(s, s5, added, removed, y);
  }

  /** The same steps bias the entry of `x` that the first step found. */
  lemma WereboldBiasShape(s: seq<Trait>, src: seq<Trait>, x: string, y: string, r: string, z: string, f: real,
                          s1: seq<Trait>, s2: seq<Trait>, s3: seq<Trait>, s4: seq<Trait>, s5: seq<Trait>, s6: seq<Trait>)
    requires x in NameSet(src) && x != y && r != x
    requires s1 == EnsureIn(s, src, x).0 && s2 == EnsureIn(s1, src, y).0 && s3 == RemoveNamed(s2, r)
    requires s4 == EnsureIn(s3, src, z).0 && s5 == BiasNamed(s4, x, f)
    requires y in NameSet(s5) && s6 == GuaranteeNamed(s5, y)
    ensures EnsureIn(s, src, x).1.Some? && FirstNamed(s6, x) == Some(BiasTrait(EnsureIn(s, src, x).1.value, f))
  {
    FirstNamedAppendOrSame(s1, s2, x);
    RemoveKeepsOthers(s2, r, x);
    FirstNamedAppendOrSame(s3, s4, x);
    BiasedEntry(s, src, x, s4, f);
    GuaranteeKeepsOther(s5, y, x);
  }

  // ---- the six hooks ----

  /** `applyCuteboldTraits` adds "Charisma Up" and "Mercy Magnet" to the
      boons and "Constitution Down" to the drawbacks, guarantees "Mercy
      Magnet", and leaves every other entry alone. */
  lemma CuteboldFacts(tb: Tables, b: seq<Trait>, d: seq<Trait>)
    requires CuteboldNames(tb) && UniqueNames(b) && UniqueNames(d)
    ensures Reached(b, CuteboldTraits(tb, b, d).0, {"Charisma Up", "Mercy Magnet"}, {})
    ensures Guaranteed(CuteboldTraits(tb, b, d).0, "Mercy Magnet")
    ensures Reached(d, CuteboldTraits(tb, b, d).1, {"Constitution Down"}, {})
  {
    var b1 := EnsureIn(b, tb.boons, "Charisma Up").0;
    var b2 := EnsureIn(b1, tb.boons, "Mercy Magnet").0;
    var b3 := BiasNamed(b2, "Charisma Up", 2.0);
    SetFirstNames(b2, "Charisma Up", 2.0);
    BiasThenGrant(b, tb.boons, "Charisma Up", "Mercy Magnet", 2.0, b1, b2, b3, GuaranteeNamed(b3, "Mercy Magnet"));
    assert CuteboldTraits(tb, b, d).0 == GuaranteeNamed(b3, "Mercy Magnet");
    var d1 := EnsureIn(d, tb.drawbacks, "Constitution Down").0;
    EnsureThenBias(d, tb.drawbacks, "Constitution Down", 2.0, d1, BiasNamed(d1, "Constitution Down", 2.0));
    assert CuteboldTraits(tb, b, d).1 == BiasNamed(d1, "Constitution Down", 2.0);
  }

  /** `applyCuteboldTraits` doubles the probability of "Charisma Up" and of
      "Constitution Down" (capped at 1), starting from the pool's own entry
      when it had one and from the table's otherwise. */
  lemma CuteboldBias(tb: Tables, b: seq<Trait>, d: seq<Trait>)
    requires CuteboldNames(tb)
    ensures EnsureIn(b, tb.boons, "Charisma Up").1.Some?
    ensures FirstNamed(CuteboldTraits(tb, b, d).0, "Charisma Up") == Some(BiasTrait(EnsureIn(b, tb.boons, "Charisma Up").1.value, 2.0))
    ensures EnsureIn(d, tb.drawbacks, "Constitution Down").1.Some?
    ensures FirstNamed(CuteboldTraits(tb, b, d).1, "Constitution Down") == Some(BiasTrait(EnsureIn(d, tb.drawbacks, "Constitution Down").1.value, 2.0))
  {
    var b1 := EnsureIn(b, tb.boons, "Charisma Up").0;
    var b2 := EnsureIn(b1, tb.boons, "Mercy Magnet").0;
    var b3 := BiasNamed(b2, "Charisma Up", 2.0);
    SetFirstNames(b2, "Charisma Up", 2.0);
    BiasThenGrantEntry(b, tb.boons, "Charisma Up", "Mercy Magnet", 2.0, b1, b2, b3, GuaranteeNamed(b3, "Mercy Magnet"));
    assert CuteboldTraits(tb, b, d).0 == GuaranteeNamed(b3, "Mercy Magnet");
    var d1 := EnsureIn(d, tb.drawbacks, "Constitution Down").0;
    BiasedEntry(d, tb.drawbacks, "Constitution Down", d1, 2.0);
    assert CuteboldTraits(tb, b, d).1 == BiasNamed(d1, "Constitution Down", 2.0);
  }

  /** `applyRoughboldTraits` adds "Intelligence Up" and "Pack Tactics" to the
      boons and "Strength Down" to the drawbacks, guarantees "Pack Tactics",
      and leaves every other entry alone. */
  lemma RoughboldFacts(tb: Tables, b: seq<Trait>, d: seq<Trait>)
    requires RoughboldNames(tb) && UniqueNames(b) && UniqueNames(d)
    ensures Reached(b, RoughboldTraits(tb, b, d).0, {"Intelligence Up", "Pack Tactics"}, {})
    ensures Guaranteed(RoughboldTraits(tb, b, d).0, "Pack Tactics")
    ensures Reached(d, RoughboldTraits(tb, b, d).1, {"Strength Down"}, {})
  {
    var b1 := EnsureIn(b, tb.boons, "Intelligence Up").0;
    var b2 := EnsureIn(b1, tb.boons, "Pack Tactics").0;
    var b3 := BiasNamed(b2, "Intelligence Up", 2.0);
    SetFirstNames(b2, "Intelligence Up", 2.0);
    BiasThenGrant(b, tb.boons, "Intelligence Up", "Pack Tactics", 2.0, b1, b2, b3, GuaranteeNamed(b3, "Pack Tactics"));
    assert RoughboldTraits(tb, b, d).0 == GuaranteeNamed(b3, "Pack Tactics");
    var d1 := EnsureIn(d, tb.drawbacks, "Strength Down").0;
    EnsureThenBias(d, tb.drawbacks, "Strength Down", 2.0, d1, BiasNamed(d1, "Strength Down", 2.0));
    assert RoughboldTraits(tb, b, d).1 == BiasNamed(d1, "Strength Down", 2.0);
  }

  /** `applyRoughboldTraits` doubles the probability of "Intelligence Up"
      and of "Strength Down" (capped at 1), starting from the pool's own
      entry when it had one and from the table's otherwise. */
  lemma RoughboldBias(tb: Tables, b: seq<Trait>, d: seq<Trait>)
    requires RoughboldNames(tb)
    ensures EnsureIn(b, tb.boons, "Intelligence Up").1.Some?
    ensures FirstNamed(RoughboldTraits(tb, b, d).0, "Intelligence Up") == Some(BiasTrait(EnsureIn(b, tb.boons, "Intelligence Up").1.value, 2.0))
    ensures EnsureIn(d, tb.drawbacks, "Strength Down").1.Some?
    ensures FirstNamed(RoughboldTraits(tb, b, d).1, "Strength Down") == Some(BiasTrait(EnsureIn(d, tb.drawbacks, "Strength Down").1.value, 2.0))
  {
    var b1 := EnsureIn(b, tb.boons, "Intelligence Up").0;
    var b2 := EnsureIn(b1, tb.boons, "Pack Tactics").0;
    var b3 := BiasNamed(b2, "Intelligence Up", 2.0);
    SetFirstNames(b2, "Intelligence Up", 2.0);
    BiasThenGrantEntry(b, tb.boons, "Intelligence Up", "Pack Tactics", 2.0, b1, b2, b3, GuaranteeNamed(b3, "Pack Tactics"));
    assert RoughboldTraits(tb, b, d).0 == GuaranteeNamed(b3, "Pack Tactics");
    var d1 := EnsureIn(d, tb.drawbacks, "Strength Down").0;
    BiasedEntry(d, tb.drawbacks, "Strength Down", d1, 2.0);
    assert RoughboldTraits(tb, b, d).1 == BiasNamed(d1, "Strength Down", 2.0);
  }

  /** `applyWereboldTraits` adds "Hidden Talent", "Milkers" and "Sudden
      Evolution" to the boons, removes any boon named "Early Bloomers",
      guarantees "Milkers", and leaves every other boon alone. */
  lemma WereboldBoons(tb: Tables, b: seq<Trait>, d: seq<Trait>)
    requires WereboldNames(tb) && UniqueNames(b)
    ensures Reached(b, WereboldTraits(tb, b, d).0, {"Hidden Talent", "Milkers", SUDDEN_EVOLUTION}, {"Early Bloomers"})
    ensures Guaranteed(WereboldTraits(tb, b, d).0, "Milkers")
  {
    var b1 := EnsureIn(b, tb.boons, "Hidden Talent").0;
    var b2 := EnsureIn(b1, tb.boons, "Milkers").0;
    var b3 := RemoveNamed(b2, "Early Bloomers");
    RemoveKeepsOthers(b2, "Early Bloomers", "Milkers");
    var b4 := EnsureIn(b3, tb.boons, SUDDEN_EVOLUTION).0;
    var b5 := BiasNamed(b4, "Hidden Talent", 2.0);
    SetFirstNames(b4, "Hidden Talent", 2.0);
    var b6 := GuaranteeNamed(b5, "Milkers");
    EnsureTwo(b, tb.boons, "Hidden Talent", "Milkers", b1, b2);
    RemoveEnsureBiasGrant(b, tb.boons, "Hidden Talent", "Milkers", "Early Bloomers", SUDDEN_EVOLUTION, 2.0, b2, b3, b4, b5, b6);
    assert WereboldTraits(tb, b, d).0 == b6;
  }

  /** `applyWereboldTraits` adds "Long Childhood" to the drawbacks and
      guarantees it, and leaves every other drawback alone. */
  lemma WereboldDrawbacks(tb: Tables, b: seq<Trait>, d: seq<Trait>)
    requires WereboldNames(tb) && UniqueNames(d)
    ensures Reached(d, WereboldTraits(tb, b, d).1, {"Long Childhood"}, {})
    ensures Guaranteed(WereboldTraits(tb, b, d).1, "Long Childhood")
  {
    var d1 := EnsureIn(d, tb.drawbacks, "Long Childhood").0;
    EnsureThenGrant(d, tb.drawbacks, "Long Childhood", d1, GuaranteeNamed(d1, "Long Childhood"));
    assert WereboldTraits(tb, b, d).1 == GuaranteeNamed(d1, "Long Childhood");
  }

  /** `applyWereboldTraits` doubles the probability of "Hidden Talent"
      (capped at 1), starting from the pool's own entry when it had one and
      from the table's otherwise. */
  lemma WereboldBias(tb: Tables, b: seq<Trait>, d: seq<Trait>)
    requires WereboldNames(tb)
    ensures EnsureIn(b, tb.boons, "Hidden Talent").1.Some?
    ensures FirstNamed(WereboldTraits(tb, b, d).0, "Hidden Talent") == Some(BiasTrait(EnsureIn(b, tb.boons, "Hidden Talent").1.value, 2.0))
  {
    var b1 := EnsureIn(b, tb.boons, "Hidden Talent").0;
    var b2 := EnsureIn(b1, tb.boons, "Milkers").0;
    var b3 := RemoveNamed(b2, "Early Bloomers");
    RemoveKeepsOthers(b2, "Early Bloomers", "Milkers");
    var b4 := EnsureIn(b3, tb.boons, SUDDEN_EVOLUTION).0;
    var b5 := BiasNamed(b4, "Hidden Talent", 2.0);
    SetFirstNames(b4, "Hidden Talent", 2.0);
    var b6 := GuaranteeNamed(b5, "Milkers");
    WereboldBiasShape(b, tb.boons, "Hidden Talent", "Milkers", "Early Bloomers", SUDDEN_EVOLUTION, 2.0, b1, b2, b3, b4, b5, b6);
    assert WereboldTraits(tb, b, d).0 == b6;
  }

  /** `applyFairyboldTraits` adds "Wings", "Dexterity Up" and "Magic
      Attunement" to the boons and "Bioluminescence" to the drawbacks,
      guarantees all four, and leaves every other entry alone. */
  lemma FairyboldFacts(tb: Tables, b: seq<Trait>, d: seq<Trait>)
    requires FairyboldNames(tb) && UniqueNames(b) && UniqueNames(d)
    ensures Reached(b, FairyboldTraits(tb, b, d).0, {"Wings", "Dexterity Up", "Magic Attunement"}, {})
    ensures Guaranteed(FairyboldTraits(tb, b, d).0, "Wings")
    ensures Guaranteed(FairyboldTraits(tb, b, d).0, "Dexterity Up")
    ensures Guaranteed(FairyboldTraits(tb, b, d).0, "Magic Attunement")
    ensures Reached(d, FairyboldTraits(tb, b, d).1, {"Bioluminescence"}, {})
    ensures Guaranteed(FairyboldTraits(tb, b, d).1, "Bioluminescence")
  {
    var b1 := EnsureIn(b, tb.boons, "Wings").0;
    var b2 := EnsureIn(b1, tb.boons, "Dexterity Up").0;
    var b3 := EnsureIn(b2, tb.boons, "Magic Attunement").0;
    var b4 := GuaranteeNamed(b3, "Wings");
    GuaranteeNames(b3, "Wings");
    var b5 := GuaranteeNamed(b4, "Dexterity Up");
    GuaranteeNames(b4, "Dexterity Up");
    var b6 := GuaranteeNamed(b5, "Magic Attunement");
    var d1 := EnsureIn(d, tb.drawbacks, "Bioluminescence").0;
    GrantThree(b, tb.boons, "Wings", "Dexterity Up", "Magic Attunement", b1, b2, b3, b4, b5, b6);
    EnsureThenGrant(d, tb.drawbacks, "Bioluminescence", d1, GuaranteeNamed(d1, "Bioluminescence"));
    assert FairyboldTraits(tb, b, d).0 == b6;
    assert FairyboldTraits(tb, b, d).1 == GuaranteeNamed(d1, "Bioluminescence");
  }

  /** `applyRoboldTraits` removes any boon named "Early Bloomers" and any
      drawback named "Long Childhood", adds and guarantees "Modular" and
      "Off Switch", and leaves every other entry alone. */
  lemma RoboldFacts(tb: Tables, b: seq<Trait>, d: seq<Trait>)
    requires RoboldNames(tb) && UniqueNames(b) && UniqueNames(d)
    ensures Reached(b, RoboldTraits(tb, b, d).0, {"Modular"}, {"Early Bloomers"})
    ensures Guaranteed(RoboldTraits(tb, b, d).0, "Modular")
    ensures Reached(d, RoboldTraits(tb, b, d).1, {"Off Switch"}, {"Long Childhood"})
    ensures Guaranteed(RoboldTraits(tb, b, d).1, "Off Switch")
  {
    var b1 := RemoveNamed(b, "Early Bloomers");
    var d1 := RemoveNamed(d, "Long Childhood");
    var b2 := EnsureIn(b1, tb.boons, "Modular").0;
    var d2 := EnsureIn(d1, tb.drawbacks, "Off Switch").0;
    RemoveThenGrant(b, tb.boons, "Early Bloomers", "Modular", b1, b2, GuaranteeNamed(b2, "Modular"));
    RemoveThenGrant(d, tb.drawbacks, "Long Childhood", "Off Switch", d1, d2, GuaranteeNamed(d2, "Off Switch"));
    assert RoboldTraits(tb, b, d).0 == GuaranteeNamed(b2, "Modular");
    assert RoboldTraits(tb, b, d).1 == GuaranteeNamed(d2, "Off Switch");
  }

  /** `applyDogboldTraits` adds "Wisdom Up" and "Man's Best Friend" to the
      boons, guarantees "Man's Best Friend", leaves every other boon alone
      and the drawbacks as they were. */
  lemma DogboldFacts(tb: Tables, b: seq<Trait>, d: seq<Trait>)
    requires DogboldNames(tb) && UniqueNames(b)
    ensures Reached(b, DogboldTraits(tb, b, d).0, {"Wisdom Up", "Man's Best Friend"}, {})
    ensures Guaranteed(DogboldTraits(tb, b, d).0, "Man's Best Friend")
    ensures DogboldTraits(tb, b, d).1 == d
  {
    var b1 := EnsureIn(b, tb.boons, "Wisdom Up").0;
    var b2 := EnsureIn(b1, tb.boons, "Man's Best Friend").0;
    var b3 := BiasNamed(b2, "Wisdom Up", 2.0);
    SetFirstNames(b2, "Wisdom Up", 2.0);
    BiasThenGrant(b, tb.boons, "Wisdom Up", "Man's Best Friend", 2.0, b1, b2, b3, GuaranteeNamed(b3, "Man's Best Friend"));
    assert DogboldTraits(tb, b, d).0 == GuaranteeNamed(b3, "Man's Best Friend");
    assert DogboldTraits(tb, b, d).1 == d;
  }

  /** `applyDogboldTraits` doubles the probability of "Wisdom Up" (capped
      at 1), starting from the pool's own entry when it had one and from the
      table's otherwise. */
  lemma DogboldBias(tb: Tables, b: seq<Trait>, d: seq<Trait>)
    requires DogboldNames(tb)
    ensures EnsureIn(b, tb.boons, "Wisdom Up").1.Some?
    ensures FirstNamed(DogboldTraits(tb, b, d).0, "Wisdom Up") == Some(BiasTrait(EnsureIn(b, tb.boons, "Wisdom Up").1.value, 2.0))
  {
    var b1 := EnsureIn(b, tb.boons, "Wisdom Up").0;
    var b2 := EnsureIn(b1, tb.boons, "Man's Best Friend").0;
    var b3 := BiasNamed(b2, "Wisdom Up", 2.0);
    SetFirstNames(b2, "Wisdom Up", 2.0);
    BiasThenGrantEntry(b, tb.boons, "Wisdom Up", "Man's Best Friend", 2.0, b1, b2, b3, GuaranteeNamed(b3, "Man's Best Friend"));
    assert DogboldTraits(tb, b, d).0 == GuaranteeNamed(b3, "Man's Best Friend");
  }

  // ---- consequences for the tables of utils/data.js ----

  /** Appending a list keeps the entry a name finds in the first part. */
  lemma {:induction false} FirstNamedConcat(a: seq<Trait>, c: seq<Trait>, n: string)
    requires n in NameSet(a)
    ensures FirstNamed(a + c, n) == FirstNamed(a, n)
  {
    if a[0].name != n {
      assert (a + c)[1..] == a[1..] + c;
      assert n in NameSet(a[1..]) by {
        var j :| 0 <= j < |a| && a[j].name == n;
        assert a[1..][j - 1].name == n;
      }
      FirstNamedConcat(a[1..], c, n);
    }
  }

  /** The table entry of "Charisma Up" is its plain boon of probability 0.2. */
  lemma CharismaUpEntry()
    ensures FirstNamed(BOONS, "Charisma Up") == Some(Plain("Charisma Up", 0.2))
  {
    assert BOONS_HEAD[29] == Plain("Charisma Up", 0.2);
    assert forall j :: 0 <= j < 29 ==> BOONS_HEAD[j].name != "Charisma Up";
    FirstAt(BOONS_HEAD, "Charisma Up", 29);
    var a := BOONS_HEAD;
    FirstNamedConcat(a, BREATH_WEAPONS, "Charisma Up");
    NameSetConcat(a, BREATH_WEAPONS);
    a := a + BREATH_WEAPONS;
    FirstNamedConcat(a, RESISTANCES, "Charisma Up");
    NameSetConcat(a, RESISTANCES);
    a := a + RESISTANCES;
    FirstNamedConcat(a, BOONS_MIDDLE, "Charisma Up");
    NameSetConcat(a, BOONS_MIDDLE);
    a := a + BOONS_MIDDLE;
    FirstNamedConcat(a, DIVERSIFY_RACES, "Charisma Up");
    NameSetConcat(a, DIVERSIFY_RACES);
    a := a + DIVERSIFY_RACES;
    FirstNamedConcat(a, BOONS_TAIL, "Charisma Up");
  }

  /** A Cutebold whose boons lacked "Charisma Up" gets the table entry with
      its probability doubled: 0.4. */
  lemma CuteboldFreshCharisma(b: seq<Trait>, d: seq<Trait>)
    requires "Charisma Up" !in NameSet(b)
    ensures var e := FirstNamed(ApplyTraits(CuteboldHook, b, d).0, "Charisma Up");
      e.Some? && EffectiveProb(e.value) == 0.4 && !e.value.guaranteedByRace
  {
    TableNames();
    var tb := Tables(BOONS, DRAWBACKS);
    CuteboldBias(tb, b, d);
    CharismaUpEntry();
    assert EnsureIn(b, tb.boons, "Charisma Up").1 == Some(Plain("Charisma Up", 0.2));
  }

  /** No entry of the boon table is named "Early Bloomers", so removing that
      name from a pool drawn from the table leaves it as it was. */
  lemma EarlyBloomersRemovalIsNoOp(b: seq<Trait>)
    requires NameSet(b) <= NameSet(BOONS)
    ensures RemoveNamed(b, "Early Bloomers") == b
  {
    EarlyBloomersIsNoBoon();
  }
}
