/**
 Comparing the results of two readings (app/decision/feedback.py): rows as sorted texts, so
 that their order does not count.

 Main result: `AgreeMeans`, that results compare equal exactly when they have as many columns
 and the same rows, each as often, provided no two rows are written alike.
 */
module Results {
  import opened Seqs
  import opened Values

  datatype Execution = Execution(columns: seq<string>, rows: seq<Row>, rowCount: nat, truncated: bool)

  predicate AtMost(s: string, t: string) {
    s == t || TextBelow(s, t)
  }

  lemma {:induction false} EitherWay(s: string, t: string)
    ensures AtMost(s, t) || AtMost(t, s)
    ensures AtMost(s, t) && AtMost(t, s) ==> s == t
  {
    if s != [] && t != [] && s[0] == t[0] {
      EitherWay(s[1..], t[1..]);
      assert s == [s[0]] + s[1..] && t == [t[0]] + t[1..];
    }
  }

  lemma {:induction false} Transitive(s: string, t: string, u: string)
    requires AtMost(s, t) && AtMost(t, u)
    ensures AtMost(s, u)
  {
    if s != [] && t != [] && u != [] && s[0] == t[0] == u[0] {
      assert s == [s[0]] + s[1..] && t == [t[0]] + t[1..] && u == [u[0]] + u[1..];
      Transitive(s[1..], t[1..], u[1..]);
    }
  }

  predicate Sorted(s: seq<string>) {
    forall i, j :: 0 <= i < j < |s| ==> AtMost(s[i], s[j])
  }

  function Insert(x: string, s: seq<string>): seq<string> {
    if s == [] then [x]
    else if AtMost(x, s[0]) then [x] + s
    else [s[0]] + Insert(x, s[1..])
  }

  function Sort(s: seq<string>): seq<string> {
    if s == [] then [] else Insert(s[0], Sort(s[1..]))
  }

  predicate Bounds(x: string, s: seq<string>) {
    forall i :: 0 <= i < |s| ==> AtMost(x, s[i])
  }

  lemma {:induction false} InsertBounds(x: string, y: string, s: seq<string>)
    requires AtMost(y, x) && Bounds(y, s)
    ensures Bounds(y, Insert(x, s))
  {
    if s != [] && !AtMost(x, s[0]) { InsertBounds(x, y, s[1..]); }
  }

  lemma BoundsAll(x: string, s: seq<string>)
    requires Sorted(s) && s != [] && AtMost(x, s[0])
    ensures Bounds(x, s)
  {
    forall j | 0 <= j < |s| ensures AtMost(x, s[j]) {
      if j > 0 { Transitive(x, s[0], s[j]); }
    }
  }

  lemma {:induction false} InsertSorted(x: string, s: seq<string>)
    requires Sorted(s)
    ensures Sorted(Insert(x, s))
  {
    if s != [] {
      if AtMost(x, s[0]) {
        BoundsAll(x, s);
      } else {
        EitherWay(x, s[0]);
        InsertSorted(x, s[1..]);
        InsertBounds(x, s[0], s[1..]);
      }
    }
  }

  lemma {:induction false} InsertCounts(x: string, s: seq<string>)
    ensures multiset(Insert(x, s)) == multiset(s) + multiset{x}
  {
    if s != [] {
      TailCounts(s);
      if !AtMost(x, s[0]) { InsertCounts(x, s[1..]); }
    }
  }

  lemma {:induction false} SortSorts(s: seq<string>)
    ensures Sorted(Sort(s)) && multiset(Sort(s)) == multiset(s)
  {
    if s != [] {
      SortSorts(s[1..]);
      InsertSorted(s[0], Sort(s[1..]));
      InsertCounts(s[0], Sort(s[1..]));
      TailCounts(s);
    }
  }

  lemma TailCounts(s: seq<string>)
    requires s != []
    ensures multiset(s) == multiset(s[1..]) + multiset{s[0]}
  {
    assert s == [s[0]] + s[1..];
  }

  lemma SameHeads(s: seq<string>, t: seq<string>)
    requires Sorted(s) && Sorted(t) && multiset(s) == multiset(t) && s != []
    ensures t != [] && s[0] == t[0]
  {
    assert s[0] in multiset(s);
    assert t != [] && t[0] in multiset(t);
    EitherWay(s[0], t[0]);
  }

  lemma SameTails(s: seq<string>, t: seq<string>)
    requires s != [] && t != [] && s[0] == t[0] && multiset(s) == multiset(t)
    ensures multiset(s[1..]) == multiset(t[1..])
  {
    TailCounts(s);
    TailCounts(t);
    assert multiset(s[1..]) == multiset(s) - multiset{s[0]} && multiset(t[1..]) == multiset(t) - multiset{t[0]};
  }

  lemma {:induction false} SortedUnique(s: seq<string>, t: seq<string>)
    requires Sorted(s) && Sorted(t) && multiset(s) == multiset(t)
    ensures s == t
  {
    if s == [] {
      assert |t| == |multiset(t)| == 0;
    } else {
      SameHeads(s, t);
      SameTails(s, t);
      SortedUnique(s[1..], t[1..]);
      assert s == [s[0]] + s[1..] && t == [t[0]] + t[1..];
    }
  }

  /** Sorted lists are equal exactly when the lists hold the same texts, each as often. */
  lemma SortCompares(s: seq<string>, t: seq<string>)
    ensures Sort(s) == Sort(t) <==> multiset(s) == multiset(t)
  {
    SortSorts(s);
    SortSorts(t);
    if multiset(s) == multiset(t) { SortedUnique(Sort(s), Sort(t)); }
  }

  function Tuple(columns: seq<string>, row: Row): seq<Value> {
    seq(|columns|, i requires 0 <= i < |columns| => Get(row, columns[i]))
  }

  function TupleOf(columns: seq<string>): Row -> seq<Value> { (row: Row) => Tuple(columns, row) }

  function Tuples(e: Execution): seq<seq<Value>> {
    Map(e.rows, TupleOf(e.columns))
  }

  /** How many columns, and each row as a text, in sorted order; `repr` is how a row is written. */
  function Comparable(e: Execution, repr: seq<Value> -> string): (nat, seq<string>) {
    (|e.columns|, Sort(Map(Tuples(e), repr)))
  }

  ghost predicate Injective(repr: seq<Value> -> string) {
    forall s, t :: repr(s) == repr(t) ==> s == t
  }

  lemma {:induction false} CountsKept(s: seq<seq<Value>>, repr: seq<Value> -> string, x: seq<Value>)
    requires Injective(repr)
    ensures multiset(Map(s, repr))[repr(x)] == multiset(s)[x]
  {
    if s != [] {
      CountsKept(s[1..], repr, x);
      assert s == [s[0]] + s[1..] && Map(s, repr) == [repr(s[0])] + Map(s[1..], repr);
    }
  }

  lemma SameMapped(s: seq<seq<Value>>, t: seq<seq<Value>>, repr: seq<Value> -> string)
    requires multiset(s) == multiset(t) && Injective(repr)
    ensures multiset(Map(s, repr)) == multiset(Map(t, repr))
  {
    forall y: string ensures multiset(Map(s, repr))[y] == multiset(Map(t, repr))[y] {
      if x :| repr(x) == y {
        CountsKept(s, repr, x);
        CountsKept(t, repr, x);
      } else {
        assert y !in Map(s, repr) && y !in Map(t, repr);
      }
    }
  }

  /** Two results compare equal exactly when they have as many columns and the same rows, each as often. */
  lemma {:induction false} AgreeMeans(d: Execution, e: Execution, repr: seq<Value> -> string)
    requires Injective(repr)
    ensures Comparable(d, repr) == Comparable(e, repr) <==>
      |d.columns| == |e.columns| && multiset(Tuples(d)) == multiset(Tuples(e))
  {
    var s, t := Map(Tuples(d), repr), Map(Tuples(e), repr);
    SortCompares(s, t);
    if multiset(s) == multiset(t) {
      forall x ensures multiset(Tuples(d))[x] == multiset(Tuples(e))[x] {
        CountsKept(Tuples(d), repr, x);
        CountsKept(Tuples(e), repr, x);
      }
    }
    if multiset(Tuples(d)) == multiset(Tuples(e)) { SameMapped(Tuples(d), Tuples(e), repr); }
  }

  predicate Agree(executions: seq<Execution>, repr: seq<Value> -> string) {
    forall i :: 0 <= i < |executions| ==> Comparable(executions[i], repr) == Comparable(executions[0], repr)
  }

  predicate NullOrZero(v: Value) {
    v.Null? || v == Num(0)
  }

  /** Nothing was counted or summed: zero rows, or a single one without a value other than 0. */
  predicate LooksEmpty(e: Execution) {
    e.rowCount == 0 ||
    (e.rowCount == 1 && e.rows != [] && forall n :: n in e.rows[0] ==> NullOrZero(e.rows[0][n]))
  }
}
