/** The parts of utils/renderer.js that decide things without touching the
    page: the requested number of kobolds, the per-race twin quota that
    `hasTwin` consumes, and `fusedRaceName`. */
module Renderer {
  import opened Traits
  import opened Data
  import JsText

  // ---- the requested count ----

  /** `Math.max(1, Math.min(1000, n))` for the parsed input `n`, where None
      stands for NaN: Math.min and Math.max then give NaN, and the loop
      `i < NaN` runs no iteration. */
  function KoboldCount(parsed: Option<int>): (count: nat)
    ensures parsed.None? ==> count == 0
    ensures parsed.Some? ==> 1 <= count <= 1000
    ensures parsed.Some? && 1 <= parsed.value <= 1000 ==> count == parsed.value
    ensures parsed.Some? && parsed.value < 1 ==> count == 1
    ensures parsed.Some? && parsed.value > 1000 ==> count == 1000
  {
    match parsed
    case None => 0
    case Some(n) =>
      var m := if n < 1000 then n else 1000;
      if m > 1 then m else 1
  }

  // ---- twins ----

  /** What `computeRace` yields: nothing (the `find` failed), or an object
      with a name and, for a table race, its hook. The placeholder
      `{ name: "No race selected" }` has no hook. */
  datatype Picked = Picked(name: string, hook: Option<Hook>)

  /** `twinQuotaByRace.get(name) || 0` */
  function Left(quota: map<string, int>, name: string): int {
    if name in quota then quota[name] else 0
  }

  /** `hasTwin` as a function of the quota map: the decision and the new map.
      `boonResult.doubleEvent` is never set, since `computeItems` returns no
      such field, so the rolled half of the decision is always false. */
  function TwinStep(enabled: bool, race: Option<Picked>, quota: map<string, int>): (bool, map<string, int>) {
    if enabled && race.Some? && race.value.name != "" && Left(quota, race.value.name) > 0 then
      (true, quota[race.value.name := Left(quota, race.value.name) - 1])
    else
      (false, quota)
  }

  /** The quota map `generateKoboldsAsync` starts from: empty unless "Double
      Event" is selected, then each race's `startingKobolds`, a later race
      of the same name overwriting an earlier one. */
  function InitialQuotas(enabled: bool, races: seq<Race>): map<string, int> {
    if !enabled || races == [] then map[]
    else
      var last := races[|races| - 1];
      InitialQuotas(enabled, races[..|races| - 1])[last.name := last.startingKobolds]
  }

  /** The map `twinQuotaByRace`, which `hasTwin` updates in place. */
  class TwinQuotas {
    var left: map<string, int>

    /** The quota initialisation of `generateKoboldsAsync`. */
    constructor (doubleEventEnabled: bool, races: seq<Race>)
      ensures left == InitialQuotas(doubleEventEnabled, races)
    {
      var quota := map[];
      if doubleEventEnabled {
        for i := 0 to |races|
          invariant quota == InitialQuotas(true, races[..i])
        {
          assert races[..i + 1][..i] == races[..i];
          quota := quota[races[i].name := races[i].startingKobolds];
        }
        assert races[..|races|] == races;
      }
      left := quota;
    }

    /** `hasTwin` */
    method HasTwin(doubleEventEnabled: bool, race: Option<Picked>) returns (twin: bool)
      modifies this
      ensures (twin, left) == TwinStep(doubleEventEnabled, race, old(left))
    {
      var forcedTwin := false;
      if doubleEventEnabled && race.Some? && race.value.name != "" {
        var l := if race.value.name in left then left[race.value.name] else 0;
        if l > 0 {
          forcedTwin := true;
          left := left[race.value.name := l - 1];
        }
      }
      var rolledTwin := false;
      twin := forcedTwin || rolledTwin;
    }
  }

  /** The twin decisions of the generation loop, for the races its
      iterations picked, and the quota map left at the end. */
  function TwinPlan(enabled: bool, quota: map<string, int>, picks: seq<Option<Picked>>): (seq<bool>, map<string, int>) {
    if picks == [] then ([], quota)
    else
      var (twins, q) := TwinPlan(enabled, quota, picks[..|picks| - 1]);
      var (t, q') := TwinStep(enabled, picks[|picks| - 1], q);
      (twins + [t], q')
  }

  /** The generation loop of `generateKoboldsAsync` (utils/renderer.js:197-219),
      reduced to its twin decisions: one quota map, one `hasTwin` call per
      iteration. The race of each iteration is an input. */
  method PlanTwins(doubleEventEnabled: bool, races: seq<Race>, picks: seq<Option<Picked>>) returns (twins: seq<bool>)
    ensures twins == TwinPlan(doubleEventEnabled, InitialQuotas(doubleEventEnabled, races), picks).0
  {
    var quotas := new TwinQuotas(doubleEventEnabled, races);
    ghost var q0 := quotas.left;
    twins := [];
    for i := 0 to |picks|
      invariant (twins, quotas.left) == TwinPlan(doubleEventEnabled, q0, picks[..i])
    {
      assert picks[..i + 1][..i] == picks[..i];
      var t := quotas.HasTwin(doubleEventEnabled, picks[i]);
      twins := twins + [t];
    }
    assert picks[..|picks|] == picks;
  }

  // ---- fused race names ----

  /** The `map` of `fusedRaceName`: a prefix and a joiner per table race. */
  function KnownAffix(race: string): Option<(string, string)> {
    if race == "Cutebold" then Some(("Cute", " "))
    else if race == "Roughbold" then Some(("Rough", " "))
    else if race == "Werebold" then Some(("Were", ""))
    else if race == "Fairybold" then Some(("Fairy", " "))
    else if race == "Robold" then Some(("Robo", " "))
    else if race == "Dogbold" then Some(("Dog", " "))
    else None
  }

  /** `s.replace(/bold$/i, "")`: a final "bold", in any letter case, goes. */
  function StripBold(s: string): (r: string)
    ensures |s| >= 4 && JsText.Lower(s[|s| - 4..]) == "bold" ==> s == r + s[|s| - 4..]
    ensures !(|s| >= 4 && JsText.Lower(s[|s| - 4..]) == "bold") ==> r == s
  {
    if |s| >= 4 && JsText.Lower(s[|s| - 4..]) == "bold" then s[..|s| - 4] else s
  }

  /** `fusedRaceName`: prefix, joiner and form; an empty joiner lowers the
      form's letters. */
  function FusedRaceName(race: string, form: string): string {
    var (prefix, joiner) := match KnownAffix(race)
      case Some(a) => a
      case None => (JsText.Trim(StripBold(race)), " ");
    prefix + joiner + (if joiner == "" then JsText.Lower(form) else form)
  }
}
