/** The three stages the current engine runs after resolution
    (utils/calculator.js:21-23): the "Synchronous Element" linkage of breath
    weapons and elemental resistances, the two-branch "Sudden Evolution"
    roll, and the final name filter. */
module PostStages {
  import opened Traits
  import opened JsText

  /** The `results` object: the two tiers, in order of insertion. */
  datatype Results = Results(common: seq<string>, rare: seq<string>)

  const SYNCHRONOUS_ELEMENT := "Synchronous Element"
  const DOUBLE_EVENT := "Double Event"
  const DIVERSIFY := "Diversify:"
  const BREATH_WEAPON := "Breath Weapon:"
  const ELEMENTAL_RESISTANCE := "Elemental Resistance:"

  // ---------------------------------------------------------------------
  // The element of a breath weapon or resistance name

  /** `name.match(/^head\s*(.+)$/)` can succeed with `\s*` matching exactly
      the k characters after `head`: those are all white space, at least one
      character is left for `(.+)`, and no line terminator follows. */
  ghost predicate MatchesWith(head: string, name: string, k: nat) {
    && head <= name && |head| + k < |name|
    && (forall j | |head| <= j < |head| + k :: IsSpace(name[j]))
    && (forall j | |head| + k <= j < |name| :: !IsLineTerminator(name[j]))
  }

  predicate NoLineTerminator(s: string) {
    forall j | 0 <= j < |s| :: !IsLineTerminator(s[j])
  }

  /** The captured group of `name.match(/^head\s*(.+)$/)`: after `head`,
      the greedy `\s*` takes the leading white space, leaving at least one
      character, and the rest must hold no line terminator. */
  function Capture(head: string, name: string): Option<string> {
    if !(head <= name) || |name| == |head| then None
    else
      var rest := name[|head|..];
      var k := if LeadingSpaces(rest) < |rest| then LeadingSpaces(rest) else |rest| - 1;
      if NoLineTerminator(rest[k..]) then Some(rest[k..]) else None
  }

  /** The regular expression matches exactly when some split of the text
      after `head` works, and the greedy `\s*` takes the longest one. */
  lemma CaptureMeaning(head: string, name: string)
    ensures Capture(head, name).None? <==> forall k: nat :: !MatchesWith(head, name, k)
    ensures var g := Capture(head, name); g.Some? ==>
      && |head| + |g.value| <= |name| && g.value == name[|name| - |g.value|..]
      && MatchesWith(head, name, |name| - |head| - |g.value|)
      && forall k: nat :: MatchesWith(head, name, k) ==> k <= |name| - |head| - |g.value|
  {
    if head <= name && |name| != |head| {
      var rest := name[|head|..];
      var k := if LeadingSpaces(rest) < |rest| then LeadingSpaces(rest) else |rest| - 1;
      CaptureSplit(head, name, k);
    }
  }

  /** Any split that works uses at most the greedy number k of spaces, and
      the greedy split works exactly when its group has no line terminator. */
  lemma CaptureSplit(head: string, name: string, k: nat)
    requires head <= name && |head| < |name|
    requires k == (if LeadingSpaces(name[|head|..]) < |name| - |head| then LeadingSpaces(name[|head|..]) else |name| - |head| - 1)
    ensures forall k': nat :: MatchesWith(head, name, k') ==> k' <= k
    ensures MatchesWith(head, name, k) <==> NoLineTerminator(name[|head|..][k..])
  {
    var rest := name[|head|..];
    forall k': nat | MatchesWith(head, name, k') ensures k' <= k {
    }
    assert forall j | 0 <= j < k :: rest[j] == name[|head| + j];
  }

  /** The two names with different heads never coincide. */
  lemma HeadsDiffer(x: string, y: string)
    requires Capture(BREATH_WEAPON, x).Some? && Capture(ELEMENTAL_RESISTANCE, y).Some?
    ensures x != y
  {
    assert x[0] == 'B' && y[0] == 'E';
  }

  // ---------------------------------------------------------------------
  // JavaScript Maps keyed by element

  /** A JavaScript `Map<string, string>`: its entries in insertion order. */
  type Assoc = seq<(string, string)>

  /** The keys in insertion order. */
  function Keys(m: Assoc): (ks: seq<string>)
    ensures |ks| == |m| && forall i | 0 <= i < |m| :: ks[i] == m[i].0
  {
    seq(|m|, i requires 0 <= i < |m| => m[i].0)
  }

  /** The position of the first occurrence of k in ks. */
  function IndexOf(ks: seq<string>, k: string): (r: Option<nat>)
    ensures r.None? <==> k !in ks
    ensures r.Some? ==> r.value < |ks| && ks[r.value] == k && forall j | 0 <= j < r.value :: ks[j] != k
  {
    if ks == [] then None
    else if ks[0] == k then Some(0)
    else match IndexOf(ks[1..], k) case None => None case Some(i) => Some(i + 1)
  }

  /** `m.get(k)` */
  function Get(m: Assoc, k: string): (v: Option<string>)
    ensures v.None? <==> k !in Keys(m)
    ensures v.Some? ==> (k, v.value) in m
  {
    match IndexOf(Keys(m), k)
    case None => None
    case Some(i) => Some(m[i].1)
  }

  /** `m.set(k, v)`: an existing key keeps its position and takes the new
      value, a new key goes last. */
  function Put(m: Assoc, k: string, v: string): (m': Assoc)
    ensures Keys(m') == if k in Keys(m) then Keys(m) else Keys(m) + [k]
  {
    match IndexOf(Keys(m), k)
    case None =>
      var m' := m + [(k, v)];
      assert Keys(m') == Keys(m) + [k];
      m'
    case Some(i) =>
      var m' := m[i := (k, v)];
      assert Keys(m') == Keys(m);
      m'
  }

  /** After `m.set(k, v)`, k reads v and every other key reads as before. */
  lemma PutGet(m: Assoc, k: string, v: string, k': string)
    ensures Get(Put(m, k, v), k) == Some(v)
    ensures k' != k ==> Get(Put(m, k, v), k') == Get(m, k')
  {
    var m' := Put(m, k, v);
    var ks := Keys(m);
    match IndexOf(ks, k)
    case None =>
      assert m' == m + [(k, v)];
      PutGetNew(m, k, v, k');
    case Some(i) =>
      assert m' == m[i := (k, v)] && Keys(m') == ks;
      match IndexOf(ks, k')
      case None =>
      case Some(j) =>
        assert k' != k ==> j != i;
  }

  lemma PutGetNew(m: Assoc, k: string, v: string, k': string)
    requires k !in Keys(m)
    ensures Get(m + [(k, v)], k) == Some(v)
    ensures k' != k ==> Get(m + [(k, v)], k') == Get(m, k')
  {
    var ks := Keys(m);
    assert Keys(m + [(k, v)]) == ks + [k];
    IndexOfAppend(ks, k, k);
    IndexOfAppend(ks, k, k');
  }

  lemma {:induction false} IndexOfAppend(ks: seq<string>, x: string, k: string)
    requires x !in ks
    ensures IndexOf(ks + [x], k) == if k in ks then IndexOf(ks, k) else if k == x then Some(|ks|) else None
  {
    if ks != [] {
      assert (ks + [x])[1..] == ks[1..] + [x];
      IndexOfAppend(ks[1..], x, k);
    }
  }

  lemma PutKeepsNoDup(m: Assoc, k: string, v: string)
    requires NoDup(Keys(m))
    ensures NoDup(Keys(Put(m, k, v)))
  {
    if k !in Keys(m) {
      NoDupAppend(Keys(m), k);
    }
  }

  /** The Map `head`-element to name after the first n traits (`breathByEl`
      or `resistByEl` in `buildSynchronousPairs`). */
  function ElementMap(items: seq<Trait>, head: string, n: nat): Assoc
    requires n <= |items|
  {
    if n == 0 then []
    else
      var m0 := ElementMap(items, head, n - 1);
      match Capture(head, items[n - 1].name)
      case None => m0
      case Some(el) => Put(m0, el, items[n - 1].name)
  }

  /** Its keys are distinct. */
  lemma {:induction false} ElementMapNoDup(items: seq<Trait>, head: string, n: nat)
    requires n <= |items|
    ensures NoDup(Keys(ElementMap(items, head, n)))
  {
    if n > 0 {
      ElementMapNoDup(items, head, n - 1);
      ElementMapStepNoDup(items, head, n);
    }
  }

  lemma ElementMapStepNoDup(items: seq<Trait>, head: string, n: nat)
    requires 0 < n <= |items| && NoDup(Keys(ElementMap(items, head, n - 1)))
    ensures NoDup(Keys(ElementMap(items, head, n)))
  {
    var el := ElementMapLast(items, head, n);
    if el.Some? {
      PutKeepsNoDup(ElementMap(items, head, n - 1), el.value, items[n - 1].name);
    }
  }

  /** The last trait either adds nothing or puts its captured element. */
  lemma ElementMapLast(items: seq<Trait>, head: string, n: nat) returns (el: Option<string>)
    requires 0 < n <= |items|
    ensures el.None? ==> ElementMap(items, head, n) == ElementMap(items, head, n - 1)
    ensures el.Some? ==> ElementMap(items, head, n) == Put(ElementMap(items, head, n - 1), el.value, items[n - 1].name)
  {
    el := Capture(head, items[n - 1].name);
  }

  /** Every entry maps the element a name of the first n traits captures to
      that name. */
  lemma {:induction false} ElementMapSound(items: seq<Trait>, head: string, n: nat)
    requires n <= |items|
    ensures forall el, name | (el, name) in ElementMap(items, head, n) ::
      name in NameSet(items[..n]) && Capture(head, name) == Some(el)
  {
    if n > 0 {
      ElementMapSound(items, head, n - 1);
      NameSetPrefix(items, n);
      var m0 := ElementMap(items, head, n - 1);
      match Capture(head, items[n - 1].name)
      case None =>
      case Some(el) => PutEntries(m0, el, items[n - 1].name);
    }
  }

  /** Every element a name of the first n traits captures is a key. */
  lemma {:induction false} ElementMapComplete(items: seq<Trait>, head: string, n: nat)
    requires n <= |items|
    ensures forall i | 0 <= i < n && Capture(head, items[i].name).Some? ::
      Capture(head, items[i].name).value in Keys(ElementMap(items, head, n))
  {
    if n > 0 {
      ElementMapComplete(items, head, n - 1);
      var m0 := ElementMap(items, head, n - 1);
      match Capture(head, items[n - 1].name)
      case None =>
      case Some(el) => PutKeysGrow(m0, el, items[n - 1].name);
    }
  }

  /** An entry after `m.set(k, v)` is an entry of m or (k, v). */
  lemma PutEntries(m: Assoc, k: string, v: string)
    ensures forall e | e in Put(m, k, v) :: e in m || e == (k, v)
  {
    match IndexOf(Keys(m), k)
    case None =>
      assert Put(m, k, v) == m + [(k, v)];
    case Some(i) =>
      var m' := m[i := (k, v)];
      assert Put(m, k, v) == m';
      forall e | e in m' ensures e in m || e == (k, v) {
        var j :| 0 <= j < |m'| && m'[j] == e;
        if j != i { assert m[j] == e; }
      }
  }

  /** `m.set(k, v)` keeps every key and has k. */
  lemma PutKeysGrow(m: Assoc, k: string, v: string)
    ensures k in Keys(Put(m, k, v))
    ensures forall x | x in Keys(m) :: x in Keys(Put(m, k, v))
  {
    if k !in Keys(m) {
      MemberAppend(Keys(m), k);
    }
  }

  lemma MemberAppend(s: seq<string>, x: string)
    ensures x in s + [x] && forall y | y in s :: y in s + [x]
  {
    assert (s + [x])[|s|] == x;
    forall y | y in s ensures y in s + [x] {
      var i :| 0 <= i < |s| && s[i] == y;
      assert (s + [x])[i] == y;
    }
  }

  // ---------------------------------------------------------------------
  // Pairs

  datatype SyncPair = SyncPair(element: string, bwName: string, erName: string)

  /** The second loop of `buildSynchronousPairs` over the first n entries of
      `breathByEl`: an element with a resistance name too becomes a pair. */
  function PairsUpTo(bw: Assoc, er: Assoc, n: nat): seq<SyncPair>
    requires n <= |bw|
  {
    if n == 0 then []
    else
      var ps0 := PairsUpTo(bw, er, n - 1);
      match Get(er, bw[n - 1].0)
      case None => ps0
      case Some(erName) => ps0 + [SyncPair(bw[n - 1].0, bw[n - 1].1, erName)]
  }

  /** Every pair comes from an entry of the first n of `breathByEl` whose
      element the resistance Map also has. */
  lemma {:induction false} PairsUpToSound(bw: Assoc, er: Assoc, n: nat)
    requires n <= |bw|
    ensures forall p | p in PairsUpTo(bw, er, n) :: (p.element, p.bwName) in bw[..n] && Get(er, p.element) == Some(p.erName)
  {
    if n > 0 {
      PairsUpToSound(bw, er, n - 1);
      assert forall i | 0 <= i < n - 1 :: bw[..n - 1][i] == bw[..n][i];
      assert bw[..n][n - 1] == bw[n - 1];
    }
  }

  /** Every entry of the first n whose element the resistance Map also has
      gives a pair. */
  lemma {:induction false} PairsUpToComplete(bw: Assoc, er: Assoc, n: nat)
    requires n <= |bw|
    ensures forall i | 0 <= i < n && Get(er, bw[i].0).Some? ::
      SyncPair(bw[i].0, bw[i].1, Get(er, bw[i].0).value) in PairsUpTo(bw, er, n)
  {
    if n > 0 {
      PairsUpToComplete(bw, er, n - 1);
    }
  }

  /** No two pairs share an element. */
  ghost predicate ElementsDistinct(ps: seq<SyncPair>) {
    forall a, b | 0 <= a < b < |ps| :: ps[a].element != ps[b].element
  }

  /** Since a Map's keys are distinct, so are the pairs' elements. */
  lemma {:induction false} PairsUpToDistinct(bw: Assoc, er: Assoc, n: nat)
    requires n <= |bw| && NoDup(Keys(bw))
    ensures ElementsDistinct(PairsUpTo(bw, er, n))
  {
    if n > 0 {
      PairsUpToDistinct(bw, er, n - 1);
      var ps0 := PairsUpTo(bw, er, n - 1);
      match Get(er, bw[n - 1].0)
      case None =>
        assert PairsUpTo(bw, er, n) == ps0;
      case Some(e) =>
        var q := SyncPair(bw[n - 1].0, bw[n - 1].1, e);
        PairsUpToSound(bw, er, n - 1);
        KeyNotEarlier(bw, ps0, n - 1);
        AppendDistinct(ps0, q);
        assert PairsUpTo(bw, er, n) == ps0 + [q];
    } else {
      assert PairsUpTo(bw, er, n) == [];
    }
  }

  /** A key of a Map is not among the keys of the entries before it. */
  lemma KeyNotEarlier(bw: Assoc, ps: seq<SyncPair>, k: nat)
    requires k < |bw| && NoDup(Keys(bw))
    requires forall p | p in ps :: (p.element, p.bwName) in bw[..k]
    ensures forall p | p in ps :: p.element != bw[k].0
  {
    forall p | p in ps ensures p.element != bw[k].0 {
      var a := PrefixIndex(bw, k, (p.element, p.bwName));
      assert Keys(bw)[a] == p.element && Keys(bw)[k] == bw[k].0;
    }
  }

  /** A position, before k, of a value found among the first k entries. */
  lemma PrefixIndex<T>(s: seq<T>, k: nat, x: T) returns (a: nat)
    requires k <= |s| && x in s[..k]
    ensures a < k && s[a] == x
  {
    a :| 0 <= a < k && s[..k][a] == x;
  }

  /** A pair whose element is new keeps the elements of a list distinct. */
  lemma AppendDistinct(ps: seq<SyncPair>, q: SyncPair)
    requires ElementsDistinct(ps)
    requires forall p | p in ps :: p.element != q.element
    ensures ElementsDistinct(ps + [q])
  {
    var r := ps + [q];
    forall a, b | 0 <= a < b < |r| ensures r[a].element != r[b].element {
      assert r[a] == ps[a];
      if b < |ps| {
        assert r[b] == ps[b];
      } else {
        assert ps[a] in ps;
      }
    }
  }

  function BreathMap(items: seq<Trait>): Assoc {
    ElementMap(items, BREATH_WEAPON, |items|)
  }

  function ResistMap(items: seq<Trait>): Assoc {
    ElementMap(items, ELEMENTAL_RESISTANCE, |items|)
  }

  /** `buildSynchronousPairs` */
  function SyncPairs(items: seq<Trait>): seq<SyncPair> {
    PairsUpTo(BreathMap(items), ResistMap(items), |BreathMap(items)|)
  }

  /** Both names of every pair are pool names. */
  predicate PairsInPool(items: seq<Trait>, ps: seq<SyncPair>) {
    forall p | p in ps :: p.bwName in NameSet(items) && p.erName in NameSet(items)
  }

  /** Every pair names a breath weapon and a resistance of the pool for the
      same element, the elements are distinct, and every element for which
      the pool has both names has a pair. */
  ghost predicate PairsWellFormed(items: seq<Trait>, ps: seq<SyncPair>) {
    && PairsInPool(items, ps)
    && (forall p | p in ps ::
          && Capture(BREATH_WEAPON, p.bwName) == Some(p.element)
          && Capture(ELEMENTAL_RESISTANCE, p.erName) == Some(p.element))
    && ElementsDistinct(ps)
  }

  lemma {:induction false} SyncPairsFacts(items: seq<Trait>)
    ensures PairsWellFormed(items, SyncPairs(items))
    ensures forall i, j | 0 <= i < |items| && 0 <= j < |items|
      && Capture(BREATH_WEAPON, items[i].name).Some?
      && Capture(BREATH_WEAPON, items[i].name) == Capture(ELEMENTAL_RESISTANCE, items[j].name) ::
      exists p | p in SyncPairs(items) :: p.element == Capture(BREATH_WEAPON, items[i].name).value
  {
    var bw := BreathMap(items);
    ElementMapNoDup(items, BREATH_WEAPON, |items|);
    PairsUpToDistinct(bw, ResistMap(items), |bw|);
    forall p | p in SyncPairs(items)
      ensures p.bwName in NameSet(items) && p.erName in NameSet(items)
      ensures Capture(BREATH_WEAPON, p.bwName) == Some(p.element)
      ensures Capture(ELEMENTAL_RESISTANCE, p.erName) == Some(p.element)
    {
      PairFromPool(items, p);
    }
    forall i, j | 0 <= i < |items| && 0 <= j < |items|
      && Capture(BREATH_WEAPON, items[i].name).Some?
      && Capture(BREATH_WEAPON, items[i].name) == Capture(ELEMENTAL_RESISTANCE, items[j].name)
      ensures exists p | p in SyncPairs(items) :: p.element == Capture(BREATH_WEAPON, items[i].name).value
    {
      PairForElement(items, i, j);
    }
  }

  /** A pair names a breath weapon and a resistance of the pool for its element. */
  lemma PairFromPool(items: seq<Trait>, p: SyncPair)
    requires p in SyncPairs(items)
    ensures p.bwName in NameSet(items) && p.erName in NameSet(items)
    ensures Capture(BREATH_WEAPON, p.bwName) == Some(p.element)
    ensures Capture(ELEMENTAL_RESISTANCE, p.erName) == Some(p.element)
  {
    var bw, er := BreathMap(items), ResistMap(items);
    PairsUpToSound(bw, er, |bw|);
    ElementMapSound(items, BREATH_WEAPON, |items|);
    ElementMapSound(items, ELEMENTAL_RESISTANCE, |items|);
    assert items[..|items|] == items;
    assert (p.element, p.bwName) in bw[..|bw|];
    assert (p.element, p.erName) in er;
  }

  /** An element with both a breath weapon and a resistance in the pool has a pair. */
  lemma PairForElement(items: seq<Trait>, i: nat, j: nat)
    requires i < |items| && j < |items|
    requires Capture(BREATH_WEAPON, items[i].name).Some?
    requires Capture(BREATH_WEAPON, items[i].name) == Capture(ELEMENTAL_RESISTANCE, items[j].name)
    ensures exists p | p in SyncPairs(items) :: p.element == Capture(BREATH_WEAPON, items[i].name).value
  {
    var bw, er := BreathMap(items), ResistMap(items);
    var el := Capture(BREATH_WEAPON, items[i].name).value;
    ElementMapComplete(items, BREATH_WEAPON, |items|);
    ElementMapComplete(items, ELEMENTAL_RESISTANCE, |items|);
    assert el in Keys(bw);
    assert el in Keys(er);
    var a :| 0 <= a < |bw| && Keys(bw)[a] == el;
    assert bw[a].0 == el;
    assert Get(er, el).Some?;
    PairsUpToComplete(bw, er, |bw|);
    assert SyncPair(bw[a].0, bw[a].1, Get(er, bw[a].0).value) in SyncPairs(items);
  }

  lemma SyncPairsInPool(items: seq<Trait>)
    ensures PairsInPool(items, SyncPairs(items))
  {
    SyncPairsFacts(items);
  }

  // ---------------------------------------------------------------------
  // The linkage

  /** `has`: the name is in either tier. */
  predicate Has(res: Results, n: string) {
    n in res.common || n in res.rare
  }

  /** `addAs`: a name already in a tier is left alone; otherwise it is
      appended to the chosen tier and recorded as linked. */
  function AddAs(res: Results, linked: set<string>, n: string, asCommon: bool): (Results, set<string>) {
    if Has(res, n) then (res, linked)
    else if asCommon then (res.(common := res.common + [n]), linked + {n})
    else (res.(rare := res.rare + [n]), linked + {n})
  }

  /** Whether the pool entry named n (which exists) belongs in `common`. */
  function AsCommon(items: seq<Trait>, n: string): bool
    requires n in NameSet(items)
  {
    EffectiveProb(FirstNamed(items, n).value) >= 1.0
  }

  /** One iteration of the pair loop of `applySynchronousElement`. */
  function SyncStep(items: seq<Trait>, res: Results, linked: set<string>, p: SyncPair): (out: (Results, set<string>))
    requires p.bwName in NameSet(items) && p.erName in NameSet(items)
    ensures Has(out.0, p.bwName) <==> Has(out.0, p.erName)
    ensures Has(res, p.bwName) == Has(res, p.erName) ==> out == (res, linked)
    ensures Has(res, p.bwName) && !Has(res, p.erName) ==>
      out == AddAs(res, linked, p.erName, AsCommon(items, p.erName))
    ensures Has(res, p.erName) && !Has(res, p.bwName) ==>
      out == AddAs(res, linked, p.bwName, AsCommon(items, p.bwName))
  {
    var bwIn := Has(res, p.bwName);
    var erIn := Has(res, p.erName);
    if bwIn && !erIn then AddAs(res, linked, p.erName, AsCommon(items, p.erName))
    else if erIn && !bwIn then AddAs(res, linked, p.bwName, AsCommon(items, p.bwName))
    else (res, linked)
  }

  /** The pair loop over the first n pairs. */
  function SyncUpTo(items: seq<Trait>, ps: seq<SyncPair>, n: nat, res: Results): (Results, set<string>)
    requires n <= |ps| && PairsInPool(items, ps)
  {
    if n == 0 then (res, {})
    else
      var before := SyncUpTo(items, ps, n - 1, res);
      SyncStep(items, before.0, before.1, ps[n - 1])
  }

  /** `applySynchronousElement`: nothing happens unless "Synchronous Element"
      is in the pool; otherwise the pair loop runs over every pair. */
  function Synchronize(items: seq<Trait>, res: Results): (Results, set<string>) {
    if SYNCHRONOUS_ELEMENT !in NameSet(items) then (res, {})
    else
      SyncPairsInPool(items);
      SyncUpTo(items, SyncPairs(items), |SyncPairs(items)|, res)
  }

  // ---------------------------------------------------------------------
  // Sudden Evolution

  datatype Form = Dragon | Dragonkin

  /** The roll's outcome: the results, the `evolutionNotes` Map, and the
      index of the next random draw. */
  datatype Evolution = Evolution(res: Results, notes: map<string, Form>, next: nat)

  /** `applySuddenEvolutionRoll`: with "Sudden Evolution" in the pool, one
      draw against `prob2 ?? 0` picks "Dragon"; failing that, a second draw
      against the trait's effective probability picks "Dragonkin". */
  function EvolutionRoll(items: seq<Trait>, res: Results, draws: Draws, next: nat): Evolution {
    match FirstNamed(items, SUDDEN_EVOLUTION)
    case None => Evolution(res, map[], next)
    case Some(se) =>
      var pDragon := match se.prob2 case Some(p) => p case None => 0.0;
      var form :=
        if draws(next) < pDragon then Some(Dragon)
        else if draws(next + 1) < EffectiveProb(se) then Some(Dragonkin)
        else None;
      var used := if draws(next) < pDragon then 1 else 2;
      match form
      case None => Evolution(res, map[], next + used)
      case Some(f) =>
        var res' := if Has(res, SUDDEN_EVOLUTION) then res else res.(rare := res.rare + [SUDDEN_EVOLUTION]);
        Evolution(res', map[SUDDEN_EVOLUTION := f], next + used)
  }

  // ---------------------------------------------------------------------
  // The filter

  /** `s.filter(keep)` */
  function Where(s: seq<string>, keep: string -> bool): (r: seq<string>)
    ensures forall n :: n in r <==> n in s && keep(n)
    ensures |r| <= |s|
  {
    if s == [] then []
    else (if keep(s[0]) then [s[0]] else []) + Where(s[1..], keep)
  }

  /** `filter` works element by element and keeps the order: filtering a
      concatenation concatenates the filtered parts (and WhereOne says which
      single elements stay). */
  lemma {:induction false} WhereAppend(a: seq<string>, b: seq<string>, keep: string -> bool)
    ensures Where(a + b, keep) == Where(a, keep) + Where(b, keep)
  {
    if a == [] {
      assert a + b == b;
    } else {
      WhereAppend(a[1..], b, keep);
      var h := if keep(a[0]) then [a[0]] else [];
      ConsAppend(a, b);
      assert Where(a + b, keep) == h + Where(a[1..] + b, keep);
      assert Where(a, keep) == h + Where(a[1..], keep);
      AppendAssoc(h, Where(a[1..], keep), Where(b, keep));
    }
  }

  /** A single element is kept exactly when it passes the test. */
  lemma WhereOne(x: string, keep: string -> bool)
    ensures Where([x], keep) == if keep(x) then [x] else []
  {
    assert [x][1..] == [];
  }

  lemma {:induction false} WhereKeepsNoDup(s: seq<string>, keep: string -> bool)
    requires NoDup(s)
    ensures NoDup(Where(s, keep))
  {
    if s != [] {
      WhereKeepsNoDup(s[1..], keep);
      assert s[0] !in s[1..];
    }
  }

  /** `filterResults`: "Synchronous Element" leaves both tiers; "Diversify:"
      names and "Double Event" leave `rare` only. */
  function Filter(res: Results): Results {
    Results(
      Where(res.common, n => n != SYNCHRONOUS_ELEMENT),
      Where(Where(Where(res.rare, n => !(DIVERSIFY <= n)), n => n != SYNCHRONOUS_ELEMENT), n => n != DOUBLE_EVENT))
  }
}
