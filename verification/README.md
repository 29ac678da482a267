# Kobold generator: trait resolution

A model of the trait-resolution core of the kobold character generator. One
generated kobold gets a pool of named boons and drawbacks, each with a
probability. The pool first passes through its race's hook, which adds,
removes, biases and guarantees traits. The selected "halfboons" are then
merged in as 0.5 rolls, unless the race guaranteed them. A dependency-ordered
resolver decides every trait, either `common` (probability at least 1) or
`rare` (a successful random draw). Drawbacks are resolved with the boons that
succeeded as an external input, so a drawback that waits on a boon is voided
by it. After resolution come three post-stages: the "Synchronous Element"
pairing of breath weapons with resistances, the "Sudden Evolution"
Dragon/Dragonkin roll, and a final name filter. When "Double Event" is
selected, a per-race quota decides which kobolds get a twin. A twin's pools
never contain "Double Event".

Every `Math.random()` call is the next value of an input sequence
`draws: nat -> Draw`, read at a cursor `next` that the model threads through
every stage. Probabilities are `real`. Properties hold per draw sequence; no
statement about distributions is made.

Modules:

- `Traits`: the trait record, effective probability, lookups by name.
- `JsText`: the JavaScript string helpers the core uses (`trim`, ASCII `toLowerCase`).
- `Dependencies`: expanding and testing dependencies.
- `Resolution`: the resolver as functions of its state, for both engines:
  - `Current` is utils/calculator.js;
  - `Legacy` is the older `computeItems` of utils.js.
- `ResolutionProofs` and `OrderingProofs`: termination, completeness, tier invariants, dependency ordering.
- `PostStages` and `PostStageProofs`: linkage, evolution, filter.
- `Calculator`: the imperative resolver (class `Resolver`, whose fields are the decided set, the succeeded set and the two lists, all updated in place) and `computeItems`, each method proved equal to its specification function.
- `CalculatorProofs`: what `computeItems` returns.
- `Data` and `DataFacts`: the `races`, `boons` and `drawbacks` tables of utils/data.js.
- `RaceHooks` and `RaceHookProofs`: `ensureInSelection`, `removeFromSelection`, `bias`, `guarantee` and the six race hooks. The hooks work in place on class `Selection`.
- `Halfboons`: `mergeHalfboonsRespectRaceGuarantee`.
- `Legacy`: the older `computeItems`.
- `Renderer` and `RendererProofs`: the requested count, the twin quota (class `TwinQuotas`), `fusedRaceName`.
- `Kobold` and `KoboldProofs`: the pool pipeline of `buildKoboldCardForRace`.

Across the project, a pool is assumed to have unique names: the resolver keys every decision by name.

## Model

| member | source | states |
|---|---|---|
| Traits.EffectiveProb | utils/calculator.js:103-105 | the biased probability when set, else the base `prob`, else 0 |
| Traits.FirstNamed | utils/data.js:187 | `find` by name: nothing exactly when the name is absent; otherwise a pool entry of that name |
| Traits.IndexOfName | utils/data.js:199 | `findIndex` by name: nothing exactly when absent; otherwise the first index holding that name |
| Traits.FirstNamedUnique | utils/calculator.js:52 | in a pool with unique names, looking up an entry's name finds that very entry at its own index |
| Traits.UniqueNameCount | utils/calculator.js:10-13 | with unique names, the number of distinct names equals the pool length, so `decidedSet.size < items.length` means some entry is undecided |
| JsText.TrimStart | utils/calculator.js:99 | removes exactly the leading whitespace: the result is a suffix, everything dropped is whitespace, and the result starts with a non-space |
| JsText.TrimEnd | utils/calculator.js:99 | the mirror image for trailing whitespace |
| JsText.RemoveFirst | utils/calculator.js:99 | `replace('*', '')` leaves a string without `*` unchanged and otherwise makes it exactly one character shorter |
| JsText.RemoveFirstDeletesFirst | utils/calculator.js:99 | when position i holds the first `*`, the result is the string with exactly that position removed: every other character stays, in order |
| JsText.Lower | utils/renderer.js:392 | same length, each character lowered on its own |
| Dependencies.CanProcessMeaning | utils/calculator.js:88-91 | a trait may be processed exactly when every dependency is decided or, for the current engine, names no pool trait (utils.js:175-178 for the older engine) |
| Dependencies.AnyDependencyMeaning | utils/calculator.js:83-86 | some dependency succeeded exactly when one expanded name succeeded in this run or outside it |
| Dependencies.NamesWithPrefixMeaning | utils/calculator.js:100 | exactly the pool names that start with the prefix, and only those |
| Dependencies.ExpansionMeaning | utils/calculator.js:93-101 | no pattern (or an empty one) gives no dependency; a pattern without '*' is that one name; a pattern with '*' gives exactly the pool names starting with the pattern minus its first '*', trimmed |
| Resolution.Roll | utils/calculator.js:70-81 | the current engine skips "Sudden Evolution"; p at least 1 appends to `common` and marks the trait succeeded without a draw; p below 1 takes one draw and appends to `rare` exactly when the draw is below p; p at most 0 never adds anything |
| ResolutionProofs.StepGrowth | utils/calculator.js:51-65 | one pass step decides at most its own trait, never un-succeeds anything, and reports progress exactly when it decided something |
| ResolutionProofs.StepKeepsInv | utils/calculator.js:51-65 | a step keeps the resolver invariant: lists duplicate-free and disjoint, every listed name decided and succeeded, `common` only traits with p at least 1, `rare` only traits with 0 < p < 1 |
| ResolutionProofs.PassUpToKeepsInv | utils/calculator.js:48-68 | a whole pass keeps that invariant |
| ResolutionProofs.PassUpToGrowth | utils/calculator.js:48-68 | a pass only adds pool names to the decided set, and `progressed` is true exactly when it added one |
| ResolutionProofs.FallbackUpToKeepsInv | utils/calculator.js:39-45 | the fallback sweep keeps the invariant |
| ResolutionProofs.FallbackDecidesAll | utils/calculator.js:39-45 | after the fallback sweep every pool name is decided |
| ResolutionProofs.LoopKeepsInv | utils/calculator.js:12-19 | the pass loop, capped at 2·N passes, keeps the invariant |
| ResolutionProofs.LoopDecidesAll | utils/calculator.js:12-19 | the pass loop ends with every pool name decided: either each of the at most 2·N passes progressed, or one did not and the fallback ran |
| ResolutionProofs.ResolveFacts | utils/calculator.js:1-19 | resolving a unique-name pool decides exactly the pool's names and satisfies the invariant |
| ResolutionProofs.LoopKeepsVoided | utils/calculator.js:56-60 | a trait voided by a dependency (decided, not succeeded) stays voided for the rest of the run |
| ResolutionProofs.VoidStep | utils/calculator.js:54-60 | a trait whose dependencies all lie outside the pool, one of them in the external succeeded set, is voided by its first step |
| ResolutionProofs.FirstPassVoids | utils/calculator.js:48-68 | such a trait is voided by the first pass |
| ResolutionProofs.ExternalDependencyVoids | utils/calculator.js:54-86 | such a trait ends in neither tier |
| OrderingProofs.RankedLoopKeepsOrdered | utils/calculator.js:51-91 | with an acyclic dependency order, no trait is rolled before every pool dependency of it has been decided |
| OrderingProofs.RankedProgress | utils/calculator.js:13-18 | with an acyclic dependency order, a pass over an incompletely decided pool always progresses, so the fallback never runs |
| OrderingProofs.DependentsOfSucceededAreVoided | utils/calculator.js:54-91 | with an acyclic order, a trait whose dependency succeeded (in the run or outside it) ends in neither tier; a trait that landed had each dependency decided and failed, or absent from the pool |
| OrderingProofs.LegacyStepWaits | utils.js:175-220 | in the older engine, a trait with a dependency missing from the pool is never decided by a pass step |
| OrderingProofs.LegacyMissingDependencyWaits | utils.js:237-244 | the older pass loop ends in the fallback sweep, and that trait is still undecided when the sweep starts |
| OrderingProofs.LegacyResolveFallsBack | utils.js:222-244 | so the older `computeItems` decides that trait only through the fallback sweep |
| PostStages.CaptureMeaning | utils/calculator.js:151-152 | the regex `^Head:\s*(.+)$`: no match exactly when no split works; otherwise the captured suffix follows the head and the longest run of spaces the greedy match allows |
| PostStages.HeadsDiffer | utils/calculator.js:151-152 | a breath-weapon name and a resistance name are never the same string |
| PostStages.Get | utils/calculator.js:160 | a lookup in the element maps finds a value exactly for a present key |
| PostStages.PutGet | utils/calculator.js:153-154 | `Map.set` then `get` returns the new value and leaves every other key's value as it was |
| PostStages.ElementMapNoDup | utils/calculator.js:150-155 | the element map never holds a key twice |
| PostStages.ElementMapSound | utils/calculator.js:150-155 | every entry maps the element captured from a pool name to that name |
| PostStages.ElementMapComplete | utils/calculator.js:150-155 | every element captured from a pool name is a key of the map |
| PostStages.PairsUpToSound | utils/calculator.js:157-163 | every pair joins a breath weapon with the resistance of the same element |
| PostStages.PairsUpToComplete | utils/calculator.js:157-163 | every breath weapon whose element has a resistance yields its pair |
| PostStages.PairsUpToDistinct | utils/calculator.js:157-163 | no element is paired twice |
| PostStages.SyncPairsFacts | utils/calculator.js:145-164 | the pairs are well formed, with distinct elements, and any element with both a breath weapon and a resistance in the pool gets a pair |
| PostStages.SyncStep | utils/calculator.js:126-141 | after one pair both of its names are in the results or neither is; if exactly one was present, the other is added, to `common` iff its probability is at least 1, and marked linked; otherwise nothing changes |
| PostStages.Where | utils/calculator.js:28-37 | `filter` keeps exactly the names satisfying the test |
| PostStages.WhereAppend | utils/calculator.js:28-37 | `filter` keeps the order: filtering a concatenation gives the filtered parts, concatenated |
| PostStages.WhereOne | utils/calculator.js:28-37 | a single name is kept exactly when it passes the test |
| PostStageProofs.AddAsFacts | utils/calculator.js:119-124 | `addAs` keeps the lists tidy, adds exactly the one name, to the requested tier, and marks it linked only when it was absent |
| PostStageProofs.SynchronizeFacts | utils/calculator.js:108-143 | nothing changes without "Synchronous Element" in the pool; otherwise the lists only grow and stay tidy, `linked` is exactly what was added, each linked name is a pool breath weapon or resistance placed by its probability whose partner was already present; afterwards each name of a pair is present exactly when either name of that pair was present before, so every pair is both-or-neither and a pair with neither name stays absent |
| PostStageProofs.EvolutionFacts | utils/calculator.js:172-194 | at most one form is recorded; "Dragon" happens exactly when the first draw is below `prob2` (default 0); "Dragonkin" happens exactly when it is not and a second draw is below the effective probability; one or two draws are used; a recorded form puts "Sudden Evolution" in `rare` unless already present; without the trait nothing changes |
| PostStageProofs.FilterFacts | utils/calculator.js:28-37 | `common` loses only "Synchronous Element"; `rare` loses exactly the "Diversify:" names, "Synchronous Element" and "Double Event" |
| Calculator.Resolver.constructor | utils/calculator.js:2-4 | empty lists and sets |
| Calculator.Resolver.ApplyRoll | utils/calculator.js:70-81 | updates the lists, succeeded set and draw cursor in place exactly as `Roll` specifies |
| Calculator.Resolver.ProcessPass | utils/calculator.js:48-68 | one pass in place, returning `progressed`, equal to `Pass` |
| Calculator.Resolver.CycleFallback | utils/calculator.js:39-45 | the fallback sweep in place, equal to `Fallback` |
| Calculator.Resolver.ResolveAll | utils/calculator.js:12-19 | the capped pass loop in place, equal to `Loop`, hence deciding every name |
| Calculator.Resolver.ApplySynchronousElement | utils/calculator.js:108-143 | the linkage stage in place, equal to `Synchronize`; the sets and cursor do not change |
| Calculator.Resolver.LinkPairs | utils/calculator.js:126-141 | the loop over the pairs, equal to `SyncUpTo` |
| Calculator.Resolver.AddAs | utils/calculator.js:119-124 | `addAs` in place, equal to its specification |
| Calculator.Resolver.ApplySuddenEvolutionRoll | utils/calculator.js:172-194 | the evolution roll in place, equal to `EvolutionRoll` |
| Calculator.BuildSynchronousPairs | utils/calculator.js:145-164 | fills the two maps in a loop and pairs them, equal to `SyncPairs` |
| Calculator.ComputeItems | utils/calculator.js:1-26 | `computeItems` equals `ComputeSpec`: the pass loop, linkage, evolution and filter |
| CalculatorProofs.ResolvedTiers | utils/calculator.js:12-81 | after the loop both lists are duplicate-free and disjoint, hold only pool names classified by probability, never "Sudden Evolution", and hold in `common` every dependency-free trait with p at least 1 |
| CalculatorProofs.ComputeTidy | utils/calculator.js:1-26 | the result tiers are duplicate-free and disjoint pool names, and `linked` lies inside them |
| CalculatorProofs.ComputeClassified | utils/calculator.js:1-26 | `common` holds only traits with p at least 1; `rare` holds, apart from linked names and "Sudden Evolution", only traits with 0 < p < 1 |
| CalculatorProofs.ComputeEvolution | utils/calculator.js:172-194 | the notes hold at most "Sudden Evolution", exactly when it is in `rare`, and it is never in `common` |
| CalculatorProofs.ComputeFiltered | utils/calculator.js:23-37 | no "Synchronous Element" anywhere, no "Double Event" or "Diversify:" name in `rare`, and every dependency-free trait with p at least 1 other than those two special traits is in `common` |
| CalculatorProofs.ComputeExternalVoids | utils/calculator.js:54-143 | a trait whose dependencies all lie outside the pool, one of them externally succeeded, can appear in the result only as a linked name |
| Data.Family | utils/data.js:14-33 | every generated name carries the prefix and the family's probability, what follows the prefix is the element it came from, and two names coincide exactly when their elements do |
| Data.Weaknesses | utils/data.js:28-33 | every weakness is named "Elemental Weakness: X" for its element X, has probability 0.65, and is rolled after "Elemental Resistance: X" of that same element |
| DataFacts.RaceQuotasPositive | utils/data.js:4-9 | every race has a positive `startingKobolds` |
| DataFacts.RaceNamesDistinct | utils/data.js:4-9 | no two races share a name |
| DataFacts.WeaknessesFollowResistances | utils/data.js:28-135 | every weakness drawback depends on the matching resistance, and that resistance is a boon |
| DataFacts.EarlyBloomersIsNoBoon | utils/data.js:53 | no boon is called "Early Bloomers"; the boon is "Early Bloomer" |
| RaceHooks.SetFirst | utils/data.js:205-211 | writing a field of the entry a name finds leaves the pool's length unchanged |
| RaceHooks.SetFirstFacts | utils/data.js:205-211 | writing a field of the entry a name finds replaces that entry and no other: the names stay, that name now finds the new entry, every other name finds what it found before, and unique names stay unique |
| RaceHooks.EnsureIn | utils/data.js:186-196 | a present name returns its entry and leaves the list; an absent name found in the source appends a copy and returns it; otherwise nothing; the list only grows at its end |
| RaceHooks.RemoveNamed | utils/data.js:198-201 | removes exactly the first entry of that name, others keeping their order; an absent name changes nothing |
| RaceHooks.BiasTrait | utils/data.js:203-207 | only a trait with numeric `prob` below 1 changes; its probability becomes min(1, effective × factor); with a factor of at least 1 it never decreases and never exceeds 1 |
| RaceHooks.GuaranteeTrait | utils/data.js:209-212 | probability pinned to 1 and marked guaranteed by race, all else kept |
| RaceHooks.Selection.constructor | utils/renderer.js:256-257 | a selection holding the given pool |
| RaceHooks.Selection.EnsureInSelection | utils/data.js:186-196 | `ensureInSelection` in place, equal to `EnsureIn` |
| RaceHooks.Selection.RemoveFromSelection | utils/data.js:198-201 | `removeFromSelection` in place, equal to `RemoveNamed` |
| RaceHooks.Selection.Bias | utils/data.js:203-207 | `bias` on this selection's entry of that name, or nothing for undefined |
| RaceHooks.Selection.Guarantee | utils/data.js:209-212 | `guarantee` on this selection's entry of that name |
| RaceHooks.ApplyCuteboldTraits | utils/data.js:214-222 | the Cutebold hook on both pools in place, equal to its specification |
| RaceHooks.ApplyRoughboldTraits | utils/data.js:224-232 | the Roughbold hook in place |
| RaceHooks.ApplyWereboldTraits | utils/data.js:234-244 | the Werebold hook in place |
| RaceHooks.ApplyFairyboldTraits | utils/data.js:246-256 | the Fairybold hook in place |
| RaceHooks.ApplyRoboldTraits | utils/data.js:258-266 | the Robold hook in place |
| RaceHooks.ApplyDogboldTraits | utils/data.js:268-274 | the Dogbold hook in place |
| RaceHooks.ApplyRaceTraits | utils/renderer.js:265 | dispatches to the race's hook with the real tables |
| RaceHookProofs.CuteboldFacts | utils/data.js:214-222 | adds "Charisma Up" and "Mercy Magnet" to the boons and "Constitution Down" to the drawbacks, guarantees "Mercy Magnet", keeps every other entry and unique names |
| RaceHookProofs.CuteboldBias | utils/data.js:215-220 | "Charisma Up" and "Constitution Down" end as their found or copied entries biased by 2 |
| RaceHookProofs.CuteboldFreshCharisma | utils/data.js:215-219 | a pool without "Charisma Up" gets the table entry at 0.4, not guaranteed |
| RaceHookProofs.RoughboldFacts | utils/data.js:224-232 | adds "Intelligence Up" and "Pack Tactics" and "Strength Down", guarantees "Pack Tactics", keeps the rest |
| RaceHookProofs.RoughboldBias | utils/data.js:225-230 | "Intelligence Up" and "Strength Down" end biased by 2 |
| RaceHookProofs.WereboldBoons | utils/data.js:234-242 | adds "Hidden Talent", "Milkers" and "Sudden Evolution", removes "Early Bloomers", guarantees "Milkers", keeps the other boons |
| RaceHookProofs.WereboldDrawbacks | utils/data.js:237-243 | adds and guarantees "Long Childhood", keeps the other drawbacks |
| RaceHookProofs.WereboldBias | utils/data.js:235-241 | "Hidden Talent" ends biased by 2 |
| RaceHookProofs.FairyboldFacts | utils/data.js:246-256 | adds "Wings", "Dexterity Up", "Magic Attunement" and "Bioluminescence" and guarantees all four, keeping the rest |
| RaceHookProofs.RoboldFacts | utils/data.js:258-266 | removes "Early Bloomers" and "Long Childhood", adds and guarantees "Modular" and "Off Switch", keeps the rest |
| RaceHookProofs.DogboldFacts | utils/data.js:268-274 | adds "Wisdom Up" and "Man's Best Friend", guarantees the latter, leaves the drawbacks alone |
| RaceHookProofs.DogboldBias | utils/data.js:269-272 | "Wisdom Up" ends biased by 2 |
| RaceHookProofs.CharismaUpEntry | utils/data.js:43-99 | the table entry of "Charisma Up" is a plain boon at 0.2 |
| RaceHookProofs.EarlyBloomersRemovalIsNoOp | utils/data.js:238 | for a pool drawn from the boon table, removing "Early Bloomers" changes nothing |
| Halfboons.Put | utils.js:150-153 | `Map.set`: an existing key keeps the Map's size, a new key goes to the end |
| Halfboons.PutFacts | utils.js:150-153 | `Map.set` then `get`: the key now finds the value set, every other key finds what it found before, the keys gain exactly that key, an existing key keeps its position, and keys stay unique |
| Halfboons.MergeHalfboonsRespectRaceGuarantee | utils.js:138-158 | builds the map, updates it once per halfboon, returns its values, equal to `Merge` |
| Halfboons.MergeMeaning | utils.js:138-158 | the result has unique names, namely the pool's names in their positions followed by the new halfboon names in first-selection order, and each name holds its expected entry |
| Halfboons.MergeCases | utils.js:146-153 | a guaranteed entry is kept as is; an unselected entry is kept; a selected unguaranteed entry becomes a 0.5 roll with the same `prob`; a selected absent name is added at 0.5 with `prob` defaulting to 0.5 |
| Legacy.DropDiversify | utils.js:232 | the filtered pool is no longer than the input |
| Legacy.DropDiversifyAppend | utils.js:232 | the filter keeps the order of the entries: filtering a concatenation gives the filtered parts, concatenated |
| Legacy.DropDiversifyOne | utils.js:232 | a single entry is kept exactly when its name does not start with "Diversify:" |
| Legacy.DropDiversifyMembers | utils.js:232 | the filter keeps exactly the entries not starting with "Diversify:" |
| Legacy.DropDiversifyFinds | utils.js:232 | any other name finds the same entry before and after the filter |
| Legacy.LegacyComputeItems | utils.js:231-247 | the older `computeItems` on a `Resolver` object, equal to `LegacySpec` |
| Legacy.LegacyComputeFacts | utils.js:185-247 | every kept entry is decided; the tiers are duplicate-free, disjoint, free of "Diversify:" names and classified by probability; every dependency-free kept trait with p at least 1 is in `common` |
| Renderer.KoboldCount | utils/renderer.js:188 | an integer input is clamped to 1..1000; an unparsable one runs no iteration |
| Renderer.TwinQuotas.constructor | utils/renderer.js:199-202 | the quota map is empty unless "Double Event" is selected, then each race's `startingKobolds` |
| Renderer.TwinQuotas.HasTwin | utils/renderer.js:308-320 | `hasTwin` in place, equal to `TwinStep` |
| Renderer.PlanTwins | utils/renderer.js:197-219 | one quota map and one `hasTwin` per iteration, equal to `TwinPlan` |
| Renderer.StripBold | utils/renderer.js:391 | a final "bold" in any case is cut off, otherwise the name is kept |
| RendererProofs.TwinStepFacts | utils/renderer.js:308-320 | with the flag off, no twin and no change; otherwise a twin exactly when the race's quota is positive, and then only that quota drops by exactly 1; no quota grows or goes negative |
| RendererProofs.InitialQuotasKeys | utils/renderer.js:199-202 | no quotas without the flag; with it, a quota for exactly the race names |
| RendererProofs.InitialQuotasValues | utils/renderer.js:199-202 | with the flag, each race's quota starts at its `startingKobolds`, the last race of a name winning |
| RendererProofs.InitialQuotasNonNegative | utils/renderer.js:199-202 | races with non-negative `startingKobolds` give no negative quota |
| RendererProofs.TableQuotasPositive | utils/renderer.js:199-202 | with the real table every race starts at its positive quota |
| RendererProofs.TwinPlanFacts | utils/renderer.js:209-219 | the i-th kobold gets a twin exactly when the flag is on and fewer earlier kobolds of its race were picked than its quota, so the first Q of a race get twins and no later one; the quota left is what remains |
| RendererProofs.FusedKnownRaces | utils/renderer.js:381-394 | the five table races with a space joiner give their prefix, a space and the form unchanged |
| RendererProofs.FusedWerebold | utils/renderer.js:381-394 | "Werebold" has an empty joiner, so it gives "Were" followed by the lower-cased form |
| RendererProofs.FusedOtherRaces | utils/renderer.js:391-393 | any other name gives its trimmed name without a final "bold", a space and the form |
| Kobold.FreshPool | utils/renderer.js:256-257 | same names at the same positions, with no bias left |
| Kobold.Without | utils/renderer.js:261 | the filtered pool is no longer than the input |
| Kobold.WithoutAppend | utils/renderer.js:261 | the filter keeps the order of the entries: filtering a concatenation gives the filtered parts, concatenated |
| Kobold.WithoutOne | utils/renderer.js:261 | a single entry is kept exactly when it has another name |
| Kobold.Successes | utils/renderer.js:278 | exactly the names in the result's two tiers |
| Kobold.PreparePools | utils/renderer.js:256-265 | fresh pools, "Double Event" dropped for a twin, then the race hook in place, equal to `HookedPools` |
| Kobold.BuildKoboldCard | utils/renderer.js:256-279 | the whole pipeline, equal to `Card`: boons resolved on the merged pool, drawbacks resolved with the boon successes as the external set |
| KoboldProofs.FreshPoolNames | utils/renderer.js:256-257 | the copies keep the names, and unique names stay unique |
| KoboldProofs.FreshPoolFinds | utils/renderer.js:256-257 | each name finds the copy, with no bias, of the entry it found before |
| KoboldProofs.WithoutNames | utils/renderer.js:261 | the filter removes exactly that name from the pool's names |
| KoboldProofs.WithoutFinds | utils/renderer.js:261 | every other name finds the same entry after the filter |
| KoboldProofs.HookedPoolsFacts | utils/renderer.js:256-265 | the pools after the hook keep unique names, and no hook brings "Double Event" into a twin's boon pool |
| KoboldProofs.TwinHasNoDoubleEvent | utils/renderer.js:259-274 | a twin's merged boon pool has no "Double Event", and neither tier of its boon result does |
| KoboldProofs.PoolsUnique | utils/renderer.js:272-274 | both pools handed to `computeItems` have unique names |
| KoboldProofs.GuaranteedBoonLands | utils/renderer.js:265-277 | a boon the race guaranteed keeps its entry through the merge, and when it has no dependency and is not a special trait it is in `common` |
| KoboldProofs.GuaranteedDrawbackLands | utils/renderer.js:265-279 | a drawback the race guaranteed, dependency-free and not special, is in the drawback result's `common` |
| KoboldProofs.DrawbackVoidedByBoon | utils/renderer.js:277-279 | a drawback whose dependencies lie outside the drawback pool, one of them a successful boon, can appear in the drawback result only as a linked name |

## Left out

- The page: rendering the lists, the option handlers, `fillList`, the badges and the class toggling of `decorateEvolvedKobolds`, `getSelectedItems`. Their duplicates in utils.js and script.js are left out too. The selected boons, drawbacks and halfboons are inputs.
- `checkSynchronousElement` and `checkTribalSchism`, which only enable or disable page elements.
- `computeRace`: it reads the page and draws its own random numbers. The race of each kobold is an input (`Option<Picked>`), and `createTwin`'s race lookup is not modelled. A twin's card is `BuildKoboldCard` with the exclusion flag set.
- `onGenerateClick`, `tick` and the batching in `generateKoboldsAsync`. They only keep the page responsive.
- utils/colors.js, `formatProb` and utils/test-helper.js: colours, number formatting and a random clicking harness.
- The distribution of `Math.random`. Properties are stated per draw sequence; nothing says a trait succeeds with probability p.
- Renderer.KoboldCount: takes the result of `parseInt` as an integer or NaN. The parsing of the text itself is not modelled.
- JsText.Lower: lowers the letters A-Z only, not the full Unicode case mapping of `toLowerCase`.
- Renderer.FusedRaceName: a race name that is an inherited property of a plain object (such as "constructor") would be looked up on the prototype in JavaScript. The model treats every name outside the six races as unmapped.
- Renderer.TwinQuotas.HasTwin: the rolled half of the decision is modelled as always false, because `computeItems` never returns a `doubleEvent` field.
- Kobold.BuildKoboldCard: always uses `mergeHalfboonsRespectRaceGuarantee`, since the `typeof … === 'function'` test is always true. The plain concatenation branch is not modelled.
- The halfboon list's own `prob: 0.5` override, made when the selection is read from the page, is part of the input.
- The race hooks take the boon and drawback tables as a parameter. `ApplyRaceTraits` passes the real tables.
- An object shared between a hook and the pool is identified by its name: "the first entry with that name". Between fetching an entry and biasing it, a hook only appends entries or removes entries of other names, so this is the same object. The shallow-copy identity of the copies themselves is not modelled.
- `guarantee(undefined)` would throw. No hook reaches it with the real tables, because every name a hook guarantees is a table name; the hook methods require that of their tables.
- The "Early Bloomers" removals in the Werebold and Robold hooks are modelled as written. For pools drawn from the table, they are proved to change nothing.
- The two copies of `mergeHalfboonsRespectRaceGuarantee` (utils.js:138-158 and utils/renderer.js:141-161) are the same text and share one model.
- The older engine's helpers share the current engine's specification. They differ only where `Engine` selects: skipping "Sudden Evolution", treating absent dependencies as decided, and the external set.
