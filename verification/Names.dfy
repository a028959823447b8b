/**
 Names made distinct by a numeric suffix: result columns (app/execution/reader.py) and the
 fresh aliases of the normalizer (app/semantics/grain_normalizer.py).
 */
module Names {
  import opened Seqs
  import opened Values

  function Suffixed(name: string, i: nat): string { name + "_" + NatDigits(i) }

  function DigitValue(c: char): nat { if '0' <= c <= '9' then (c - '0') as nat else 0 }

  function NatValue(s: string): nat {
    if s == [] then 0 else 10 * NatValue(s[..|s| - 1]) + DigitValue(s[|s| - 1])
  }

  /** Reading the digits of a number gives the number back, so no two numbers share theirs. */
  lemma {:induction false} DigitsRoundTrip(n: nat)
    ensures NatValue(NatDigits(n)) == n
  {
    var last := ['0', '1', '2', '3', '4', '5', '6', '7', '8', '9'][n % 10];
    assert DigitValue(last) == n % 10;
    if n < 10 {
      assert NatDigits(n)[..0] == [];
    } else {
      DigitsRoundTrip(n / 10);
      assert NatDigits(n)[..|NatDigits(n)| - 1] == NatDigits(n / 10);
    }
  }

  lemma SuffixInjective(name: string, i: nat, j: nat)
    requires Suffixed(name, i) == Suffixed(name, j)
    ensures i == j
  {
    DigitsRoundTrip(i);
    DigitsRoundTrip(j);
    assert Suffixed(name, i)[|name| + 1..] == NatDigits(i);
    assert Suffixed(name, j)[|name| + 1..] == NatDigits(j);
  }

  ghost function Tried(name: string, below: nat): set<string> {
    set i | 2 <= i < below :: Suffixed(name, i)
  }

  lemma {:induction false} TriedCount(name: string, below: nat)
    requires below >= 2
    ensures |Tried(name, below)| == below - 2
  {
    if below == 2 {
      assert Tried(name, below) == {};
    } else {
      TriedCount(name, below - 1);
      forall i | 2 <= i < below - 1 ensures Suffixed(name, i) != Suffixed(name, below - 1) {
        if Suffixed(name, i) == Suffixed(name, below - 1) { SuffixInjective(name, i, below - 1); }
      }
      assert Tried(name, below) == Tried(name, below - 1) + {Suffixed(name, below - 1)};
    }
  }

  /** Only finitely many suffixes are taken, so the search for a free one ends. */
  lemma TriedFit(name: string, below: nat, taken: set<string>)
    requires below >= 2 && Tried(name, below) <= taken
    ensures below - 2 <= |taken|
  {
    TriedCount(name, below);
    SubsetSize(Tried(name, below), taken);
  }

  lemma {:induction false} SubsetSize<T>(a: set<T>, b: set<T>)
    requires a <= b
    ensures |a| <= |b|
  {
    if a != {} {
      var x :| x in a;
      SubsetSize(a - {x}, b - {x});
    }
  }

  /** The base name, or its first suffixed form, that nothing else has. */
  predicate FirstFree(base: string, taken: set<string>, name: string) {
    if base !in taken then name == base
    else exists i :: 2 <= i && i <= |taken| + 2 && name == Suffixed(base, i) && name !in taken
           && forall j :: 2 <= j < i ==> Suffixed(base, j) in taken
  }

  lemma FirstFreeOnly(base: string, taken: set<string>, a: string, b: string)
    requires FirstFree(base, taken, a) && FirstFree(base, taken, b)
    ensures a == b
  {
  }

  method FreshAlias(base: string, existing: set<string>) returns (candidate: string)
    ensures candidate !in existing && FirstFree(base, existing, candidate)
  {
    candidate := base;
    var index := 2;
    while candidate in existing
      invariant index >= 2 && Tried(base, index - 1) <= existing
      invariant index == 2 ==> candidate == base
      invariant index > 2 ==> base in existing && candidate == Suffixed(base, index - 1)
      invariant forall j :: 2 <= j < index - 1 ==> Suffixed(base, j) in existing
      decreases |existing| + 3 - index
    {
      if index > 2 {
        assert Tried(base, index) == Tried(base, index - 1) + {candidate};
        TriedFit(base, index, existing);
      } else {
        assert Tried(base, index) == {};
      }
      candidate := Suffixed(base, index);
      index := index + 1;
    }
    if index > 2 {
      TriedFit(base, index - 1, existing);
    }
  }

  // Result columns.

  function SetOf(s: seq<string>): set<string> { set x | x in s }

  /** `name`, `name_2`, `name_3`, ...: the candidates a column is offered in turn. */
  function Candidate(name: string, k: nat): string {
    if k == 0 then name else Suffixed(name, k + 1)
  }

  /** A candidate another column has, or will have under its own name. */
  predicate Refused(name: string, candidate: string, seen: set<string>, taken: set<string>) {
    candidate in seen || (candidate != name && candidate in taken)
  }

  /** The first candidate not refused. */
  ghost predicate Chosen(name: string, seen: set<string>, taken: set<string>, unique: string) {
    exists k: nat :: unique == Candidate(name, k) && !Refused(name, unique, seen, taken)
      && forall j: nat :: j < k ==> Refused(name, Candidate(name, j), seen, taken)
  }

  method UniqueName(name: string, seen: set<string>, taken: set<string>) returns (candidate: string)
    ensures Chosen(name, seen, taken, candidate)
  {
    candidate := name;
    var suffix := 2;
    while candidate in seen || (candidate != name && candidate in taken)
      invariant suffix >= 2 && candidate == Candidate(name, suffix - 2)
      invariant forall j: nat :: j < suffix - 2 ==> Refused(name, Candidate(name, j), seen, taken)
      decreases |seen + taken| + 3 - suffix
    {
      assert Tried(name, suffix) <= seen + taken by {
        forall i | 2 <= i < suffix ensures Suffixed(name, i) in seen + taken {
          assert Refused(name, Candidate(name, i - 1), seen, taken);
        }
      }
      TriedFit(name, suffix, seen + taken);
      candidate := Suffixed(name, suffix);
      suffix := suffix + 1;
    }
  }

  /** What the renaming promises: as many columns, all different, and a name's first column keeps it. */
  predicate MadeUnique(names: seq<string>, unique: seq<string>) {
    && |unique| == |names|
    && (forall i, j :: 0 <= i < j < |unique| ==> unique[i] != unique[j])
    && (forall i :: 0 <= i < |names| && names[i] !in names[..i] ==> unique[i] == names[i])
  }

  /** A renamed column never takes a name the query gave another column. */
  predicate NoBorrowing(names: seq<string>, unique: seq<string>)
    requires |unique| == |names|
  {
    forall i :: 0 <= i < |names| && unique[i] != names[i] ==> unique[i] !in names
  }

  /** Each column so far got the first candidate not refused when its turn came. */
  ghost predicate Built(names: seq<string>, unique: seq<string>, taken: set<string>) {
    |unique| <= |names| && forall i :: 0 <= i < |unique| ==> ChosenAt(names, unique, taken, i)
  }

  ghost predicate ChosenAt(names: seq<string>, unique: seq<string>, taken: set<string>, i: nat)
    requires i < |unique| <= |names|
  {
    Chosen(names[i], SetOf(unique[..i]), taken, unique[i])
  }

  method UniqueColumns(names: seq<string>) returns (unique: seq<string>)
    ensures MadeUnique(names, unique) && NoBorrowing(names, unique)
    ensures |unique| == |names| && Built(names, unique, SetOf(names))
  {
    var taken := SetOf(names);
    var seen: set<string> := {};
    unique := [];
    for i := 0 to |names|
      invariant |unique| == i && seen == SetOf(unique) && Built(names, unique, taken)
    {
      var candidate := UniqueName(names[i], seen, taken);
      Extended(names, unique, taken, candidate);
      seen := seen + {candidate};
      unique := unique + [candidate];
    }
    BuiltUnique(names, unique);
  }

  lemma Extended(names: seq<string>, unique: seq<string>, taken: set<string>, candidate: string)
    requires Built(names, unique, taken) && |unique| < |names|
    requires Chosen(names[|unique|], SetOf(unique), taken, candidate)
    ensures Built(names, unique + [candidate], taken) && SetOf(unique + [candidate]) == SetOf(unique) + {candidate}
  {
    var longer := unique + [candidate];
    forall i | 0 <= i < |longer| ensures ChosenAt(names, longer, taken, i) {
      assert longer[..i] == unique[..i];
      if i < |unique| {
        assert ChosenAt(names, unique, taken, i);
      } else {
        assert unique[..i] == unique;
      }
    }
  }

  lemma ChosenFree(name: string, seen: set<string>, taken: set<string>, unique: string)
    requires Chosen(name, seen, taken, unique)
    ensures unique !in seen && (unique != name ==> unique !in taken) && (name !in seen ==> unique == name)
  {
    var k: nat :| unique == Candidate(name, k) && !Refused(name, unique, seen, taken)
      && forall j: nat :: j < k ==> Refused(name, Candidate(name, j), seen, taken);
    if name !in seen {
      assert !Refused(name, Candidate(name, 0), seen, taken);
    }
  }

  lemma BuiltUnique(names: seq<string>, unique: seq<string>)
    requires |unique| == |names| && Built(names, unique, SetOf(names))
    ensures MadeUnique(names, unique) && NoBorrowing(names, unique)
  {
    forall i | 0 <= i < |names|
      ensures unique[i] !in unique[..i] && (unique[i] != names[i] ==> unique[i] !in names)
    {
      assert ChosenAt(names, unique, SetOf(names), i);
      ChosenFree(names[i], SetOf(unique[..i]), SetOf(names), unique[i]);
    }
    forall i | 0 <= i < |names| && names[i] !in names[..i] ensures unique[i] == names[i] {
      forall j | 0 <= j < i ensures unique[j] != names[i] {
        assert names[..i][j] == names[j];
      }
      assert ChosenAt(names, unique, SetOf(names), i);
      ChosenFree(names[i], SetOf(unique[..i]), SetOf(names), unique[i]);
    }
    forall i, j | 0 <= i < j < |unique| ensures unique[i] != unique[j] {
      assert unique[..j][i] == unique[i];
    }
  }

  // Rows as dictionaries.

  function AsDict<V>(columns: seq<string>, row: seq<V>): map<string, V>
    requires |columns| == |row|
  {
    if columns == [] then map[]
    else AsDict(columns[..|columns| - 1], row[..|row| - 1])[columns[|columns| - 1] := row[|row| - 1]]
  }

  /** Under distinct column names the row can be read back from its dictionary, value by value. */
  lemma {:induction false} NoValueLost<V>(columns: seq<string>, row: seq<V>)
    requires |columns| == |row| && forall i, j :: 0 <= i < j < |columns| ==> columns[i] != columns[j]
    ensures forall i :: 0 <= i < |row| ==> columns[i] in AsDict(columns, row) && AsDict(columns, row)[columns[i]] == row[i]
    ensures AsDict(columns, row).Keys == SetOf(columns)
  {
    if columns != [] {
      var front, values := columns[..|columns| - 1], row[..|row| - 1];
      NoValueLost(front, values);
      forall i | 0 <= i < |row|
        ensures columns[i] in AsDict(columns, row) && AsDict(columns, row)[columns[i]] == row[i]
      {
        if i < |row| - 1 {
          assert columns[i] == front[i] && row[i] == values[i];
        }
      }
      assert columns == front + [columns[|columns| - 1]];
    }
  }
}
