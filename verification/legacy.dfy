/** The older engine, `computeItems` in utils.js:231-247: the same pass loop
    as the current engine on the pool without its "Diversify:" entries, with
    no external succeeded set and none of the later stages. A dependency
    that is not a pool name never counts as decided here. */
module Legacy {
  import opened Traits
  import opened Dependencies
  import opened Resolution
  import opened ResolutionProofs
  import opened PostStages
  import opened Calculator

  /** `items.filter(item => !item.name.startsWith("Diversify:"))` */
  function DropDiversify(items: seq<Trait>): (kept: seq<Trait>)
    ensures |kept| <= |items|
  {
    if items == [] then []
    else (if DIVERSIFY <= items[0].name then [] else [items[0]]) + DropDiversify(items[1..])
  }

  /** The filter works entry by entry and keeps the order: filtering a
      concatenation concatenates the filtered parts (and DropDiversifyOne
      says which single entries stay). */
  lemma {:induction false} DropDiversifyAppend(a: seq<Trait>, b: seq<Trait>)
    ensures DropDiversify(a + b) == DropDiversify(a) + DropDiversify(b)
  {
    if a == [] {
      assert a + b == b;
    } else {
      DropDiversifyAppend(a[1..], b);
      var h := if DIVERSIFY <= a[0].name then [] else [a[0]];
      ConsAppend(a, b);
      assert DropDiversify(a + b) == h + DropDiversify(a[1..] + b);
      assert DropDiversify(a) == h + DropDiversify(a[1..]);
      AppendAssoc(h, DropDiversify(a[1..]), DropDiversify(b));
    }
  }

  /** A single entry is kept exactly when its name does not start with
      "Diversify:". */
  lemma DropDiversifyOne(t: Trait)
    ensures DropDiversify([t]) == if DIVERSIFY <= t.name then [] else [t]
  {
    assert [t][1..] == [];
  }

  /** The older `computeItems` as a function: the tiers, and the index of the
      next unused random draw. */
  function LegacySpec(items: seq<Trait>, draws: Draws, next: nat): (Results, nat) {
    var t := Resolve(Run(Legacy, DropDiversify(items), {}, draws), next);
    (Results(t.common, t.rare), t.next)
  }

  /** The older `computeItems`: the resolver state lives in one Resolver
      object, as in the current engine, driven by the older engine's rules. */
  method LegacyComputeItems(items: seq<Trait>, draws: Draws, next: nat) returns (res: Results, next': nat)
    ensures (res, next') == LegacySpec(items, draws, next)
  {
    var filteredItems := DropDiversify(items);
    var r := new Resolver(Run(Legacy, filteredItems, {}, draws), next);
    r.ResolveAll();
    res := r.Lists();
    next' := r.next;
  }

  /** The filter keeps exactly the entries whose name does not start with
      "Diversify:". */
  lemma {:induction false} DropDiversifyMembers(items: seq<Trait>)
    ensures forall t :: t in DropDiversify(items) <==> t in items && !(DIVERSIFY <= t.name)
  {
    if items != [] {
      DropDiversifyMembers(items[1..]);
      assert forall t :: t in items <==> t == items[0] || t in items[1..];
    }
  }

  /** A name the filter keeps finds the same entry before and after it. */
  lemma {:induction false} DropDiversifyFinds(items: seq<Trait>, n: string)
    requires !(DIVERSIFY <= n)
    ensures FirstNamed(DropDiversify(items), n) == FirstNamed(items, n)
  {
    if items != [] {
      var rest := DropDiversify(items[1..]);
      var kept := DropDiversify(items);
      if items[0].name == n {
        assert kept == [items[0]] + rest;
        assert kept[0] == items[0];
      } else {
        DropDiversifyFinds(items[1..], n);
        assert FirstNamed(items, n) == FirstNamed(items[1..], n);
        if !(DIVERSIFY <= items[0].name) {
          assert kept == [items[0]] + rest;
          assert kept[1..] == rest;
          assert FirstNamed(kept, n) == FirstNamed(kept[1..], n);
        } else {
          assert kept == rest;
        }
      }
    }
  }

  /** The filter keeps names unique. */
  lemma {:induction false} DropDiversifyUnique(items: seq<Trait>)
    requires UniqueNames(items)
    ensures UniqueNames(DropDiversify(items))
  {
    if items != [] {
      assert UniqueNames(items[1..]);
      DropDiversifyUnique(items[1..]);
      var rest := DropDiversify(items[1..]);
      var kept := DropDiversify(items);
      if !(DIVERSIFY <= items[0].name) {
        assert kept == [items[0]] + rest;
        DropDiversifyMembers(items[1..]);
        assert NameSet(rest) <= NameSet(items[1..]) by {
          forall x | x in NameSet(rest) ensures x in NameSet(items[1..]) {
            var k :| 0 <= k < |rest| && rest[k].name == x;
            assert rest[k] in items[1..];
          }
        }
        assert items[0].name !in NameSet(items[1..]) by {
          forall j | 0 <= j < |items[1..]| ensures items[1..][j].name != items[0].name {
            assert items[1..][j] == items[j + 1];
          }
        }
        forall i, j | 0 <= i < j < |kept| ensures kept[i].name != kept[j].name {
          if i > 0 { assert kept[i] == rest[i - 1] && kept[j] == rest[j - 1]; }
          else { assert kept[j] == rest[j - 1]; }
        }
      }
    }
  }

  /** What the older `computeItems` returns for a pool with unique names:
      every entry kept by the filter is decided; the tiers are duplicate-free
      and disjoint and hold no "Diversify:" name; `common` holds only pool
      traits of effective probability at least 1 and `rare` only traits whose
      probability lies strictly between 0 and 1; and a kept trait without
      dependencies of probability at least 1 is in `common` ("Sudden
      Evolution" included: this engine has no stage of its own for it). */
  lemma LegacyComputeFacts(items: seq<Trait>, draws: Draws, next: nat)
    requires UniqueNames(items)
    ensures var kept := DropDiversify(items);
      Resolve(Run(Legacy, kept, {}, draws), next).decided == NameSet(kept)
    ensures var res := LegacySpec(items, draws, next).0;
      && NoDup(res.common) && NoDup(res.rare) && (forall x | x in res.common :: x !in res.rare)
      && (forall x | x in res.common || x in res.rare :: x in NameSet(items) && !(DIVERSIFY <= x))
      && (forall x | x in res.common :: EffectiveProb(FirstNamed(items, x).value) >= 1.0)
      && (forall x | x in res.rare :: 0.0 < EffectiveProb(FirstNamed(items, x).value) < 1.0)
    ensures var kept := DropDiversify(items); var res := LegacySpec(items, draws, next).0;
      forall i | 0 <= i < |kept| && ExpandDependencies(kept[i], kept) == [] && EffectiveProb(kept[i]) >= 1.0 ::
        kept[i].name in res.common
  {
    var kept := DropDiversify(items);
    forall n | !(DIVERSIFY <= n) ensures FirstNamed(kept, n) == FirstNamed(items, n) {
      DropDiversifyFinds(items, n);
    }
    DropDiversifyMembers(items);
    DropDiversifyUnique(items);
    var r := Run(Legacy, kept, {}, draws);
    ResolveFacts(r, next);
    var t := Resolve(r, next);
    ElemsMeaning(t.common);
    ElemsMeaning(t.rare);
    forall x | x in t.common || x in t.rare ensures x in NameSet(items) && !(DIVERSIFY <= x) {
      var i :| 0 <= i < |kept| && kept[i].name == x;
      assert kept[i] in kept;
    }
    forall i | 0 <= i < |kept| && ExpandDependencies(kept[i], kept) == [] && EffectiveProb(kept[i]) >= 1.0
      ensures kept[i].name in t.common
    {
      assert kept[i].name in NameSet(kept);
      assert !AnyDependencySucceeded(kept[i], kept, t.succeeded, {});
    }
  }
}
