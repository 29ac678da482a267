/** What the twin controller and `fusedRaceName` guarantee. */
module RendererProofs {
  import opened Traits
  import opened Data
  import opened DataFacts
  import opened Renderer
  import JsText

  /** No quota is negative. */
  ghost predicate NonNegative(quota: map<string, int>) {
    forall n | n in quota :: quota[n] >= 0
  }

  /** One `hasTwin` call: with the flag off nothing changes and no twin is
      made; a twin is made exactly when the race's remaining quota is
      positive, and then that quota drops by exactly one while every other
      race's stays; no quota grows, and none goes below zero. */
  lemma TwinStepFacts(enabled: bool, race: Option<Picked>, quota: map<string, int>)
    ensures !enabled ==> TwinStep(enabled, race, quota) == (false, quota)
    ensures var (twin, q') := TwinStep(enabled, race, quota);
      && (twin <==> enabled && race.Some? && race.value.name != "" && Left(quota, race.value.name) > 0)
      && (twin ==> Left(q', race.value.name) == Left(quota, race.value.name) - 1
                   && forall n | n != race.value.name :: Left(q', n) == Left(quota, n))
      && (!twin ==> q' == quota)
      && (forall n :: Left(q', n) <= Left(quota, n))
      && (NonNegative(quota) ==> NonNegative(q'))
  {
  }

  /** There are quotas only when "Double Event" is selected, and then one
      for each race name. */
  lemma {:induction false} InitialQuotasKeys(enabled: bool, races: seq<Race>)
    ensures !enabled ==> InitialQuotas(enabled, races) == map[]
    ensures enabled ==> InitialQuotas(enabled, races).Keys == set r | r in races :: r.name
  {
    if enabled && races != [] {
      var init := races[..|races| - 1];
      InitialQuotasKeys(enabled, init);
      assert forall r :: r in races <==> r in init || r == races[|races| - 1];
    }
  }

  /** A race's quota starts at its `startingKobolds` (the last race of a
      name wins, as later assignments overwrite earlier ones). */
  lemma {:induction false} InitialQuotasValues(enabled: bool, races: seq<Race>)
    ensures enabled ==> forall i | 0 <= i < |races| && (forall j | i < j < |races| :: races[j].name != races[i].name) ::
      races[i].name in InitialQuotas(enabled, races) && InitialQuotas(enabled, races)[races[i].name] == races[i].startingKobolds
  {
    if enabled && races != [] {
      var init := races[..|races| - 1];
      InitialQuotasValues(enabled, init);
      forall i | 0 <= i < |init| && (forall j | i < j < |races| :: races[j].name != races[i].name)
        ensures races[i].name in InitialQuotas(enabled, races)
        ensures InitialQuotas(enabled, races)[races[i].name] == races[i].startingKobolds
      {
        assert init[i] == races[i];
        assert forall j | i < j < |init| :: init[j] == races[j];
      }
    }
  }

  /** No race starting with a negative quota means no quota is negative. */
  lemma {:induction false} InitialQuotasNonNegative(enabled: bool, races: seq<Race>)
    requires forall r | r in races :: r.startingKobolds >= 0
    ensures NonNegative(InitialQuotas(enabled, races))
  {
    if enabled && races != [] {
      var init := races[..|races| - 1];
      assert forall k | 0 <= k < |init| :: init[k] == races[k];
      InitialQuotasNonNegative(enabled, init);
    }
  }

  /** With the race table, every race starts with a positive quota. */
  lemma TableQuotasPositive()
    ensures forall i | 0 <= i < |RACES| :: Left(InitialQuotas(true, RACES), RACES[i].name) == RACES[i].startingKobolds > 0
  {
    RaceQuotasPositive();
    RaceNamesDistinct();
    InitialQuotasValues(true, RACES);
  }

  /** How many of the picks name the race `n`. */
  function Count(picks: seq<Option<Picked>>, n: string): nat {
    if picks == [] then 0
    else Count(picks[..|picks| - 1], n) + (if picks[|picks| - 1].Some? && picks[|picks| - 1].value.name == n then 1 else 0)
  }

  /** The quota left after c instances of a race that started with q. */
  function Remaining(q: int, c: nat): int {
    if q <= 0 then q else if c >= q then 0 else q - c
  }

  /** The twin plan: an instance gets a twin exactly when "Double Event" is
      selected and fewer earlier instances of its race than its starting
      quota were picked, so the first Q instances of a race with quota Q get
      twins and no later one does; with the flag off the quotas stay as they
      were. */
  lemma {:induction false} TwinPlanFacts(enabled: bool, q0: map<string, int>, picks: seq<Option<Picked>>)
    ensures |TwinPlan(enabled, q0, picks).0| == |picks|
    ensures forall i | 0 <= i < |picks| :: TwinPlan(enabled, q0, picks).0[i] <==>
      enabled && picks[i].Some? && picks[i].value.name != ""
      && Count(picks[..i], picks[i].value.name) < Left(q0, picks[i].value.name)
    ensures enabled ==> forall n | n != "" :: Left(TwinPlan(enabled, q0, picks).1, n) == Remaining(Left(q0, n), Count(picks, n))
    ensures !enabled ==> TwinPlan(enabled, q0, picks).1 == q0
  {
    if picks != [] {
      var init := picks[..|picks| - 1];
      var last := picks[|picks| - 1];
      TwinPlanFacts(enabled, q0, init);
      var (twins, q) := TwinPlan(enabled, q0, init);
      var (t, q') := TwinStep(enabled, last, q);
      TwinStepFacts(enabled, last, q);
      assert TwinPlan(enabled, q0, picks) == (twins + [t], q');
      forall i | 0 <= i < |init| ensures picks[..i] == init[..i] && picks[i] == init[i] {
      }
      assert picks[..|picks| - 1] == init;
      if enabled && last.Some? && last.value.name != "" {
        var n := last.value.name;
        assert Left(q, n) == Remaining(Left(q0, n), Count(init, n));
      }
    }
  }

  // ---- fused race names ----

  /** The table races other than "Werebold": the prefix of the map, a
      space, and the form as given. */
  lemma FusedKnownRaces(form: string)
    ensures FusedRaceName("Cutebold", form) == "Cute " + form
    ensures FusedRaceName("Roughbold", form) == "Rough " + form
    ensures FusedRaceName("Fairybold", form) == "Fairy " + form
    ensures FusedRaceName("Robold", form) == "Robo " + form
    ensures FusedRaceName("Dogbold", form) == "Dog " + form
  {
  }

  /** "Werebold": no joiner, and the form lower-cased. */
  lemma FusedWerebold(form: string)
    ensures FusedRaceName("Werebold", form) == "Were" + JsText.Lower(form)
  {
  }

  /** Any other name: the name without a final "bold" in any case, trimmed,
      a space, and the form as given. */
  lemma FusedOtherRaces(race: string, form: string)
    requires KnownAffix(race).None?
    ensures FusedRaceName(race, form) == JsText.Trim(StripBold(race)) + " " + form
  {
  }
}
