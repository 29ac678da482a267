/** The pool pipeline of `buildKoboldCardForRace` (utils/renderer.js:256-279):
    fresh per-kobold pools, "Double Event" dropped for a twin, the race hook,
    the halfboon merge, then the boons resolved and the drawbacks resolved
    against the boons that succeeded. */
module Kobold {
  import opened Traits
  import opened PostStages
  import opened RaceHooks
  import opened Halfboons
  import opened Calculator
  import opened Data
  import opened Renderer

  /** `selected.map(b => ({ ...b, _biasedProb: undefined }))`: copies with no
      bias left from an earlier kobold. */
  function FreshPool(selected: seq<Trait>): (pool: seq<Trait>)
    ensures |pool| == |selected|
    ensures forall i | 0 <= i < |selected| :: pool[i].name == selected[i].name && pool[i].biased.None?
  {
    if selected == [] then [] else [selected[0].(biased := None)] + FreshPool(selected[1..])
  }

  /** `items.filter(b => b.name !== name)`: every entry of that name goes. */
  function Without(items: seq<Trait>, name: string): (kept: seq<Trait>)
    ensures |kept| <= |items|
  {
    if items == [] then []
    else (if items[0].name == name then [] else [items[0]]) + Without(items[1..], name)
  }

  /** The filter works entry by entry and keeps the order: filtering a
      concatenation concatenates the filtered parts (and WithoutOne says
      which single entries stay). */
  lemma {:induction false} WithoutAppend(a: seq<Trait>, b: seq<Trait>, name: string)
    ensures Without(a + b, name) == Without(a, name) + Without(b, name)
  {
    if a == [] {
      assert a + b == b;
    } else {
      WithoutAppend(a[1..], b, name);
      var h := if a[0].name == name then [] else [a[0]];
      ConsAppend(a, b);
      assert Without(a + b, name) == h + Without(a[1..] + b, name);
      assert Without(a, name) == h + Without(a[1..], name);
      AppendAssoc(h, Without(a[1..], name), Without(b, name));
    }
  }

  /** A single entry is kept exactly when it has another name. */
  lemma WithoutOne(t: Trait, name: string)
    ensures Without([t], name) == if t.name == name then [] else [t]
  {
    assert [t][1..] == [];
  }

  /** The race's hook, when there is a race and it has one
      (`race?.applyTraits?.(...)`). */
  function HookOf(race: Option<Picked>): Option<Hook> {
    if race.Some? then race.value.hook else None
  }

  /** The two pools as the race hook leaves them. */
  function HookedPools(race: Option<Picked>, selectedBoons: seq<Trait>, selectedDrawbacks: seq<Trait>, excludeDoubleEvent: bool): (seq<Trait>, seq<Trait>) {
    var copies := FreshPool(selectedBoons);
    var boonsPool := if excludeDoubleEvent then Without(copies, DOUBLE_EVENT) else copies;
    Hooked(HookOf(race), boonsPool, FreshPool(selectedDrawbacks))
  }

  /** The race hook applied to the two pools, when there is one. */
  function Hooked(hook: Option<Hook>, boons: seq<Trait>, drawbacks: seq<Trait>): (seq<Trait>, seq<Trait>) {
    match hook
    case Some(h) => ApplyTraits(h, boons, drawbacks)
    case None => (boons, drawbacks)
  }

  /** The halfboons a kobold gets: all of them, or for a twin all but
      "Double Event". */
  function HalfboonsFor(selectedHalfboons: seq<Trait>, excludeDoubleEvent: bool): seq<Trait> {
    if excludeDoubleEvent then Without(selectedHalfboons, DOUBLE_EVENT) else selectedHalfboons
  }

  /** The pools handed to `computeItems`: the merged boon pool and the
      drawback pool. */
  function Pools(race: Option<Picked>, selectedBoons: seq<Trait>, selectedDrawbacks: seq<Trait>,
                 selectedHalfboons: seq<Trait>, excludeDoubleEvent: bool): (seq<Trait>, seq<Trait>) {
    var (boonsPool, drawbacksPool) := HookedPools(race, selectedBoons, selectedDrawbacks, excludeDoubleEvent);
    (Merge(boonsPool, HalfboonsFor(selectedHalfboons, excludeDoubleEvent)), drawbacksPool)
  }

  /** The names in a result's tiers: `new Set([...common, ...rare])`. */
  function Successes(o: Outcome): (s: set<string>)
    ensures forall x :: x in s <==> x in o.common || x in o.rare
  {
    ElemsMeaning(o.common);
    ElemsMeaning(o.rare);
    Elems(o.common) + Elems(o.rare)
  }

  /** The card's two results and the index of the next unused draw. */
  function Card(race: Option<Picked>, selectedBoons: seq<Trait>, selectedDrawbacks: seq<Trait>,
                selectedHalfboons: seq<Trait>, excludeDoubleEvent: bool, draws: Draws, next: nat): (Outcome, Outcome, nat) {
    var (mergedBoons, drawbacksPool) := Pools(race, selectedBoons, selectedDrawbacks, selectedHalfboons, excludeDoubleEvent);
    var (boonResult, n1) := ComputeSpec(mergedBoons, {}, draws, next);
    var (drawbackResult, n2) := ComputeSpec(drawbacksPool, Successes(boonResult), draws, n1);
    (boonResult, drawbackResult, n2)
  }

  /** The per-kobold pools, the race hook editing them in place. */
  method PreparePools(race: Option<Picked>, selectedBoons: seq<Trait>, selectedDrawbacks: seq<Trait>, excludeDoubleEvent: bool)
    returns (boonsPool: seq<Trait>, drawbacksPool: seq<Trait>)
    ensures (boonsPool, drawbacksPool) == HookedPools(race, selectedBoons, selectedDrawbacks, excludeDoubleEvent)
  {
    boonsPool := FreshPool(selectedBoons);
    if excludeDoubleEvent {
      boonsPool := Without(boonsPool, DOUBLE_EVENT);
    }
    var boons := new Selection(boonsPool);
    var drawbacks := new Selection(FreshPool(selectedDrawbacks));
    ApplyHook(HookOf(race), boons, drawbacks);
    boonsPool, drawbacksPool := boons.items, drawbacks.items;
  }

  /** `race?.applyTraits?.(...)` on the two selections. */
  method ApplyHook(hook: Option<Hook>, boons: Selection, drawbacks: Selection)
    requires boons != drawbacks
    modifies boons, drawbacks
    ensures (boons.items, drawbacks.items) == Hooked(hook, old(boons.items), old(drawbacks.items))
  {
    if hook.Some? {
      ApplyRaceTraits(hook.value, boons, drawbacks);
    }
  }

  /** The non-page part of `buildKoboldCardForRace`. */
  method BuildKoboldCard(race: Option<Picked>, selectedBoons: seq<Trait>, selectedDrawbacks: seq<Trait>,
                         selectedHalfboons: seq<Trait>, excludeDoubleEvent: bool, draws: Draws, next: nat)
    returns (boonResult: Outcome, drawbackResult: Outcome, next': nat)
    ensures (boonResult, drawbackResult, next') == Card(race, selectedBoons, selectedDrawbacks, selectedHalfboons, excludeDoubleEvent, draws, next)
  {
    var boonsPool, drawbacksPool := PreparePools(race, selectedBoons, selectedDrawbacks, excludeDoubleEvent);
    var half := selectedHalfboons;
    if excludeDoubleEvent {
      half := Without(selectedHalfboons, DOUBLE_EVENT);
    }
    var mergedBoons := MergeHalfboonsRespectRaceGuarantee(boonsPool, half);
    assert (mergedBoons, drawbacksPool) == Pools(race, selectedBoons, selectedDrawbacks, selectedHalfboons, excludeDoubleEvent);
    var n1;
    boonResult, n1 := ComputeItems(mergedBoons, {}, draws, next);
    var boonSuccesses := Successes(boonResult);
    drawbackResult, next' := ComputeItems(drawbacksPool, boonSuccesses, draws, n1);
  }
}
