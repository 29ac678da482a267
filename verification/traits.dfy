/** Trait records as the kobold generator's tables and pools hold them, the
    effective probability of a trait, the random source, and the few
    JavaScript string operations the engine relies on. */
module Traits {

  datatype Option<T> = None | Some(value: T)

  /** One value returned by Math.random(): a real in [0, 1). */
  type Draw = r: real | 0.0 <= r < 1.0

  /** The random source: the i-th call to Math.random() returns draws(i). */
  type Draws = nat -> Draw

  /** A boon or drawback entry. `prob` and `prob2` are the table's numbers
      (absent fields are None), `rolledAfter` the dependency pattern,
      `biased` the `_biasedProb` override and `guaranteedByRace` the
      `_guaranteedByRace` flag (absent reads as false). */
  datatype Trait = Trait(
    name: string,
    prob: Option<real>,
    prob2: Option<real>,
    rolledAfter: Option<string>,
    biased: Option<real>,
    guaranteedByRace: bool)

  /** The trait whose roll the engine leaves to its own stage. */
  const SUDDEN_EVOLUTION := "Sudden Evolution"

  /** A plain table entry: a name and a probability, nothing else. */
  function Plain(name: string, p: real): Trait {
    Trait(name, Some(p), None, None, None, false)
  }

  /** `item._biasedProb ?? item.prob ?? 0` */
  function EffectiveProb(t: Trait): (p: real)
    ensures t.biased.Some? ==> p == t.biased.value
    ensures t.biased.None? && t.prob.Some? ==> p == t.prob.value
    ensures t.biased.None? && t.prob.None? ==> p == 0.0
  {
    match t.biased
    case Some(b) => b
    case None => (match t.prob case Some(q) => q case None => 0.0)
  }

  /** The names of a pool, in order. */
  function Names(items: seq<Trait>): (ns: seq<string>)
    ensures |ns| == |items|
    ensures forall i :: 0 <= i < |items| ==> ns[i] == items[i].name
  {
    if items == [] then [] else Names(items[..|items| - 1]) + [items[|items| - 1].name]
  }

  /** The set of names of a pool (`new Set(items.map(it => it.name))`). */
  function NameSet(items: seq<Trait>): (s: set<string>)
    ensures forall i :: 0 <= i < |items| ==> items[i].name in s
    ensures forall n :: n in s ==> exists i :: 0 <= i < |items| && items[i].name == n
  {
    set i | 0 <= i < |items| :: items[i].name
  }

  /** Names are the identity of traits: no two entries of a pool share one. */
  ghost predicate UniqueNames(items: seq<Trait>) {
    forall i, j :: 0 <= i < j < |items| ==> items[i].name != items[j].name
  }

  /** `items.find(it => it.name === name)`: the first entry with that name. */
  function FirstNamed(items: seq<Trait>, name: string): (r: Option<Trait>)
    ensures r.None? <==> name !in NameSet(items)
    ensures r.Some? ==> r.value in items && r.value.name == name
  {
    if items == [] then None
    else if items[0].name == name then Some(items[0])
    else
      assert forall i :: 1 <= i < |items| ==> items[i] == items[1..][i - 1];
      FirstNamed(items[1..], name)
  }

  /** The index of the first entry with that name (`findIndex`). */
  function IndexOfName(items: seq<Trait>, name: string): (r: Option<nat>)
    ensures r.None? <==> name !in NameSet(items)
    ensures r.Some? ==> r.value < |items| && items[r.value].name == name
    ensures r.Some? ==> forall j :: 0 <= j < r.value ==> items[j].name != name
  {
    if items == [] then None
    else if items[0].name == name then Some(0)
    else
      assert forall i :: 1 <= i < |items| ==> items[i] == items[1..][i - 1];
      match IndexOfName(items[1..], name)
      case None => None
      case Some(k) => Some(k + 1)
  }

  /** In a pool with unique names the entry a name finds is the one holding it. */
  lemma FirstNamedUnique(items: seq<Trait>, i: nat)
    requires UniqueNames(items) && i < |items|
    ensures FirstNamed(items, items[i].name) == Some(items[i])
    ensures IndexOfName(items, items[i].name) == Some(i)
  {
    var k := IndexOfName(items, items[i].name);
    assert k.Some? && k.value == i;
    FirstNamedIsIndexOf(items, items[i].name);
  }

  lemma {:induction false} FirstNamedIsIndexOf(items: seq<Trait>, name: string)
    ensures FirstNamed(items, name).Some? ==>
      IndexOfName(items, name).Some? && FirstNamed(items, name).value == items[IndexOfName(items, name).value]
  {
    if items != [] && items[0].name != name {
      FirstNamedIsIndexOf(items[1..], name);
      var k := IndexOfName(items[1..], name);
      if k.Some? {
        assert items[1..][k.value] == items[k.value + 1];
      }
    }
  }

  /** A pool with unique names has exactly as many names as entries. */
  lemma {:induction false} UniqueNameCount(items: seq<Trait>)
    requires UniqueNames(items)
    ensures |NameSet(items)| == |items|
  {
    if items != [] {
      var init := items[..|items| - 1];
      assert UniqueNames(init);
      UniqueNameCount(init);
      var last := items[|items| - 1].name;
      assert NameSet(items) == NameSet(init) + {last};
      assert last !in NameSet(init);
    }
  }

  /** Appending an entry of a new name keeps names unique. */
  lemma AppendUnique(s: seq<Trait>, t: Trait)
    requires UniqueNames(s) && t.name !in NameSet(s)
    ensures UniqueNames(s + [t])
  {
    var u := s + [t];
    forall i, j | 0 <= i < j < |u| ensures u[i].name != u[j].name {
      if j == |s| {
        assert u[i] == s[i];
      } else {
        assert u[i] == s[i] && u[j] == s[j];
      }
    }
  }

  /** The names of a prefix one entry longer. */
  lemma NameSetPrefix(items: seq<Trait>, k: nat)
    requires 0 < k <= |items|
    ensures NameSet(items[..k]) == NameSet(items[..k - 1]) + {items[k - 1].name}
  {
    assert forall j | 0 <= j < k - 1 :: items[..k - 1][j] == items[..k][j];
    assert items[..k][k - 1] == items[k - 1];
  }

  /** The head and tail of a concatenation with a non-empty left part. */
  lemma ConsAppend<T>(a: seq<T>, b: seq<T>)
    requires a != []
    ensures (a + b)[0] == a[0] && (a + b)[1..] == a[1..] + b
  {
    assert (a + b)[1..] == a[1..] + b;
  }

  lemma AppendAssoc<T>(x: seq<T>, y: seq<T>, z: seq<T>)
    ensures (x + y) + z == x + (y + z)
  {
    assert (x + y) + z == x + (y + z);
  }

  /** Cardinality closes a subset: a subset at least as large as its superset is equal to it. */
  lemma SubsetFull<T>(a: set<T>, b: set<T>)
    requires a <= b && |a| >= |b|
    ensures a == b
  {
    if a != b {
      var x :| x in b && x !in a;
      assert a <= b - {x};
      SubsetSize(a, b - {x});
    }
  }

  lemma SubsetSize<T>(a: set<T>, b: set<T>)
    requires a <= b
    ensures |a| <= |b|
  {
    assert b == a + (b - a);
  }

  /** The names of two pools put together. */
  lemma NameSetConcat(a: seq<Trait>, b: seq<Trait>)
    ensures NameSet(a + b) == NameSet(a) + NameSet(b)
  {
    var c := a + b;
    assert forall j :: 0 <= j < |a| ==> c[j] == a[j];
    assert forall j :: 0 <= j < |b| ==> c[|a| + j] == b[j];
    forall x | x in NameSet(c) ensures x in NameSet(a) + NameSet(b) {
      var j :| 0 <= j < |c| && c[j].name == x;
      if j >= |a| { assert b[j - |a|].name == x; }
    }
  }

  /** The names of a pool with one more entry at its end. */
  lemma NameSetSnoc(s: seq<Trait>, x: Trait)
    ensures NameSet(s + [x]) == NameSet(s) + {x.name}
  {
    var t := s + [x];
    assert t[|s|] == x;
    assert forall j :: 0 <= j < |s| ==> t[j] == s[j];
    forall n | n in NameSet(t) ensures n in NameSet(s) + {x.name} {
      var j :| 0 <= j < |t| && t[j].name == n;
      if j < |s| { assert s[j].name == n; }
    }
  }

  /** A list one entry longer than its prefix `s` is `s` and that entry. */
  lemma PrefixSnoc(s: seq<Trait>, t: seq<Trait>)
    requires s <= t && |t| == |s| + 1
    ensures t == s + [t[|s|]]
  {
  }

  /** Every element of a sequence occurs in it at most once. */
  predicate NoDup(s: seq<string>) {
    forall i, j :: 0 <= i < j < |s| ==> s[i] != s[j]
  }

  /** The elements of a sequence as a set. */
  function Elems(s: seq<string>): set<string> {
    set i | 0 <= i < |s| :: s[i]
  }

  lemma ElemsMeaning(s: seq<string>)
    ensures forall x :: x in Elems(s) <==> x in s
  {
  }

  lemma ElemsAppend(s: seq<string>, x: string)
    ensures Elems(s + [x]) == Elems(s) + {x}
  {
    assert forall i :: 0 <= i < |s| ==> (s + [x])[i] == s[i];
    assert (s + [x])[|s|] == x;
  }

  /** Appending a new element keeps a sequence duplicate-free. */
  lemma NoDupAppend(s: seq<string>, x: string)
    requires NoDup(s) && x !in s
    ensures NoDup(s + [x])
  {
  }
}

/** The JavaScript string operations the engine uses: `trim()`, the `\s`
    class of regular expressions, `replace` of a single character and
    `toLowerCase` restricted to letters that have a simple lower-case form. */
module JsText {

  /** JavaScript WhiteSpace and LineTerminator code points (`\s`, `trim`). */
  predicate IsSpace(c: char) {
    c == ' ' || c == '\t' || c == '\n' || c == '\U{B}' || c == '\U{C}' || c == '\r'
    || c == '\U{A0}' || c == '\U{1680}' || ('\U{2000}' <= c <= '\U{200A}')
    || c == '\U{2028}' || c == '\U{2029}' || c == '\U{202F}' || c == '\U{205F}'
    || c == '\U{3000}' || c == '\U{FEFF}'
  }

  /** The characters that `.` in a regular expression does not match. */
  predicate IsLineTerminator(c: char) {
    c == '\n' || c == '\r' || c == '\U{2028}' || c == '\U{2029}'
  }

  function TrimStart(s: string): (r: string)
    ensures |r| <= |s| && r == s[|s| - |r|..]
    ensures r == [] || !IsSpace(r[0])
    ensures forall i :: 0 <= i < |s| - |r| ==> IsSpace(s[i])
  {
    if |s| > 0 && IsSpace(s[0]) then TrimStart(s[1..]) else s
  }

  function TrimEnd(s: string): (r: string)
    ensures |r| <= |s| && r == s[..|r|]
    ensures r == [] || !IsSpace(r[|r| - 1])
    ensures forall i :: |r| <= i < |s| ==> IsSpace(s[i])
  {
    if |s| > 0 && IsSpace(s[|s| - 1]) then TrimEnd(s[..|s| - 1]) else s
  }

  /** `s.trim()` */
  function Trim(s: string): string {
    TrimEnd(TrimStart(s))
  }

  /** `s.replace(c, '')` with a one-character pattern: drops the first `c` only. */
  function RemoveFirst(s: string, c: char): (r: string)
    ensures c !in s ==> r == s
    ensures c in s ==> |r| == |s| - 1
  {
    if s == [] then []
    else if s[0] == c then s[1..]
    else [s[0]] + RemoveFirst(s[1..], c)
  }

  /** The character `replace` deletes is the first `c`, and every other
      character stays, in order. */
  lemma {:induction false} RemoveFirstDeletesFirst(s: string, c: char, i: nat)
    requires i < |s| && s[i] == c && c !in s[..i]
    ensures RemoveFirst(s, c) == s[..i] + s[i + 1..]
  {
    if i == 0 {
      assert s[..0] == [];
    } else {
      assert s[0] in s[..i];
      assert s[1..][..i - 1] == s[1..i];
      assert c !in s[1..i] by {
        assert forall x | x in s[1..i] :: x in s[..i];
      }
      RemoveFirstDeletesFirst(s[1..], c, i - 1);
      assert s[..i] == [s[0]] + s[1..][..i - 1];
      assert s[i + 1..] == s[1..][i..];
    }
  }

  /** The number of leading `\s` characters. */
  function LeadingSpaces(s: string): (n: nat)
    ensures n <= |s|
    ensures forall i :: 0 <= i < n ==> IsSpace(s[i])
    ensures n == |s| || !IsSpace(s[n])
  {
    if |s| > 0 && IsSpace(s[0]) then 1 + LeadingSpaces(s[1..]) else 0
  }

  /** `toLowerCase()` on one character, for the Latin letters A to Z. */
  function LowerChar(c: char): char {
    if 'A' <= c <= 'Z' then (c as int + 32) as char else c
  }

  function Lower(s: string): (r: string)
    ensures |r| == |s|
    ensures forall i :: 0 <= i < |s| ==> r[i] == LowerChar(s[i])
  {
    if s == [] then [] else [LowerChar(s[0])] + Lower(s[1..])
  }
}
