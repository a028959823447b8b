/**
 Child pre-aggregation (app/semantics/grain_normalizer.py): a LEFT JOIN to child rows that
 would repeat the parent is replaced by one to the children totalled per parent key.

 Main results: `EachOnce`, that the rewritten query has each combination of the other rows
 exactly once; `SameGroups` and `SameChildSums`, that it keeps the groups and every SUM of a
 child measure in each group, NULLs included; and `ParentAggregates`, that an aggregate that
 does not read the child is the one the query has without the child join.  GrainRows has the
 rest, an aggregate over the child's key columns among it.  All are about queries whose later
 joins do not name the child's alias, a condition that is not checked: see ChildScope.
 */
module GrainNormalizer {
  import opened Seqs
  import opened Sql
  import opened Values
  import opened AliasScope
  import RowKeys
  import Names

  /**
   One proven fan-out edge in a query: the aliases of its two ends, the child's table, the
   edge's (child, parent) key columns, the child measures summed, and the names the rewrite
   picks for its derived table, the table inside it, and each total.
   */
  datatype Shape = Shape(parent: string, child: string, table: string, keys: seq<(string, string)>,
                         measures: seq<string>, derived: string, source: string, sums: seq<string>)

  predicate Proper(sh: Shape) {
    && |sh.keys| > 0 && |sh.sums| == |sh.measures|
    && sh.parent != sh.child && sh.parent != sh.derived && sh.child != sh.derived
    && RowKeys.NamesDistinct(PreItems(sh))
  }

  // The join the rewrite supports.

  function Terms(x: Expr): seq<Expr> {
    if x.And? then Terms(x.l) + Terms(x.r) else [x]
  }

  /** The (child, parent) columns an equality relates, whichever side each is on. */
  function TermPair(x: Expr, child: string, parent: string): Option<(string, string)> {
    if !(x.Cmp? && x.op.Eq? && x.l.Col? && x.r.Col?) then None
    else if x.l.alias == child && x.r.alias == parent then Some((x.l.name, x.r.name))
    else if x.r.alias == child && x.l.alias == parent then Some((x.r.name, x.l.name))
    else None
  }

  predicate JoinsOn(on: Expr, child: string, parent: string, keys: seq<(string, string)>) {
    && (forall t :: t in Terms(on) ==> TermPair(t, child, parent).Some? && TermPair(t, child, parent).value in keys)
    && (forall k :: k in keys ==> exists t :: t in Terms(on) && TermPair(t, child, parent) == Some(k))
  }

  predicate SupportedFrom(f: From, sh: Shape) {
    f.Join? &&
    if f.alias == sh.child then
      f.kind.LeftOuter? && f.src == Named(sh.table) && JoinsOn(f.on, sh.child, sh.parent, sh.keys)
      && sh.parent in Aliases(f.left)
    else
      && SupportedFrom(f.left, sh)
      && SourceFree(f.src, sh.child) && ExprFree(f.on, sh.child)
      && SourceFree(f.src, sh.derived) && ExprFree(f.on, sh.derived)
  }

  // What the rewrite builds.

  function KeyItems(sh: Shape): (r: seq<Item>)
    ensures |r| == |sh.keys|
    ensures forall i :: 0 <= i < |r| ==> r[i] == Item(sh.keys[i].0, Col(sh.source, sh.keys[i].0))
  {
    seq(|sh.keys|, i requires 0 <= i < |sh.keys| => Item(sh.keys[i].0, Col(sh.source, sh.keys[i].0)))
  }

  function SumItems(sh: Shape): (r: seq<Item>)
    requires |sh.sums| == |sh.measures|
    ensures |r| == |sh.measures|
    ensures forall i :: 0 <= i < |r| ==> r[i] == Item(sh.sums[i], Agg(Sum, Col(sh.source, sh.measures[i])))
  {
    seq(|sh.measures|, i requires 0 <= i < |sh.measures| => Item(sh.sums[i], Agg(Sum, Col(sh.source, sh.measures[i]))))
  }

  function PreItems(sh: Shape): seq<Item>
    requires |sh.sums| == |sh.measures|
  {
    KeyItems(sh) + SumItems(sh)
  }

  function PreKeys(sh: Shape): (r: seq<GroupItem>)
    ensures |r| == |sh.keys|
    ensures forall i :: 0 <= i < |r| ==> r[i] == ByExpr(Col(sh.source, sh.keys[i].0))
  {
    seq(|sh.keys|, i requires 0 <= i < |sh.keys| => ByExpr(Col(sh.source, sh.keys[i].0)))
  }

  /** SELECT keys, SUM(measure) ... FROM child GROUP BY keys */
  function PreAggregated(sh: Shape): Query
    requires |sh.sums| == |sh.measures|
  {
    Select(One(Named(sh.table), sh.source), TRUE, By(PreKeys(sh)), TRUE, false, PreItems(sh), false, None)
  }

  function Renamed(x: Expr, from: string, to: string): Expr {
    match x
    case And(l, r) => And(Renamed(l, from, to), Renamed(r, from, to))
    case Cmp(op, l, r) => Cmp(op, Renamed(l, from, to), Renamed(r, from, to))
    case Col(a, n) => if a == from then Col(to, n) else x
    case _ => x
  }

  function NewFrom(f: From, sh: Shape): From
    requires |sh.sums| == |sh.measures|
  {
    match f
    case One(_, _) => f
    case Join(l, k, s, a, on) =>
      if a == sh.child then
        Join(l, k, Derived(PreAggregated(sh)), sh.derived, Renamed(on, sh.child, sh.derived))
      else Join(NewFrom(l, sh), k, s, a, on)
  }

  /** The FROM list without the child join. */
  function BaseFrom(f: From, sh: Shape): From {
    match f
    case One(_, _) => f
    case Join(l, k, s, a, on) => if a == sh.child then l else Join(BaseFrom(l, sh), k, s, a, on)
  }

  // Which child rows, and which pre-aggregated row, a combination joins.

  predicate KeyMatch(sh: Shape, e: Env, r: Row) {
    forall i :: 0 <= i < |sh.keys| ==>
      Compare(Eq, Get(r, sh.keys[i].0), Get(RowOf(e, sh.parent), sh.keys[i].1)) == Bool(true)
  }

  function Joins(sh: Shape, e: Env): Row -> bool { (r: Row) => KeyMatch(sh, e, r) }

  function Children(sh: Shape, c: Context, e: Env): seq<Row> {
    Filter(SourceRows(Named(sh.table), c, map[]), Joins(sh, e))
  }

  function Totals(sh: Shape, c: Context, e: Env): seq<Row>
    requires |sh.sums| == |sh.measures|
  {
    Filter(Rows(PreAggregated(sh), c, map[]), Joins(sh, e))
  }

  lemma {:induction false} TermsHold(x: Expr, c: Context, e: Env)
    ensures IsTrue(Eval(x, c, e, [])) <==> forall t :: t in Terms(x) ==> IsTrue(Eval(t, c, e, []))
  {
    if x.And? {
      TermsHold(x.l, c, e);
      TermsHold(x.r, c, e);
    }
  }

  /** The join condition is equality of all the key columns, in any order and orientation. */
  lemma {:induction false} JoinMeaning(on: Expr, sh: Shape, c: Context, e: Env, r: Row)
    requires sh.child != sh.parent && JoinsOn(on, sh.child, sh.parent, sh.keys)
    ensures IsTrue(Eval(on, c, e[sh.child := r], [])) <==> KeyMatch(sh, e, r)
  {
    TermsHold(on, c, e[sh.child := r]);
    forall t | t in Terms(on)
      ensures var (n, m) := TermPair(t, sh.child, sh.parent).value;
              IsTrue(Eval(t, c, e[sh.child := r], [])) <==> Compare(Eq, Get(r, n), Get(RowOf(e, sh.parent), m)) == Bool(true)
    {
    }
    if KeyMatch(sh, e, r) {
      forall t | t in Terms(on) ensures IsTrue(Eval(t, c, e[sh.child := r], [])) {
        var k := TermPair(t, sh.child, sh.parent).value;
        assert k in sh.keys;
        var i :| 0 <= i < |sh.keys| && sh.keys[i] == k;
      }
    }
    if forall t :: t in Terms(on) ==> IsTrue(Eval(t, c, e[sh.child := r], [])) {
      forall i | 0 <= i < |sh.keys|
        ensures Compare(Eq, Get(r, sh.keys[i].0), Get(RowOf(e, sh.parent), sh.keys[i].1)) == Bool(true)
      {
        assert sh.keys[i] in sh.keys;
        var t :| t in Terms(on) && TermPair(t, sh.child, sh.parent) == Some(sh.keys[i]);
      }
      assert KeyMatch(sh, e, r);
    }
  }

  lemma {:induction false} RenamedTerms(x: Expr, child: string, parent: string, to: string)
    requires parent != child && parent != to && child != to
    requires forall t :: t in Terms(x) ==> TermPair(t, child, parent).Some?
    ensures |Terms(Renamed(x, child, to))| == |Terms(x)|
    ensures forall i :: 0 <= i < |Terms(x)| ==>
              TermPair(Terms(Renamed(x, child, to))[i], to, parent) == TermPair(Terms(x)[i], child, parent)
  {
    if x.And? {
      RenamedTerms(x.l, child, parent, to);
      RenamedTerms(x.r, child, parent, to);
    } else {
      assert x in Terms(x);
    }
  }

  lemma RenamedJoins(on: Expr, sh: Shape)
    requires Proper(sh) && JoinsOn(on, sh.child, sh.parent, sh.keys)
    ensures JoinsOn(Renamed(on, sh.child, sh.derived), sh.derived, sh.parent, sh.keys)
  {
    RenamedTerms(on, sh.child, sh.parent, sh.derived);
    var ts, us := Terms(on), Terms(Renamed(on, sh.child, sh.derived));
    forall k | k in sh.keys ensures exists t :: t in us && TermPair(t, sh.derived, sh.parent) == Some(k) {
      var t :| t in ts && TermPair(t, sh.child, sh.parent) == Some(k);
      var i :| 0 <= i < |ts| && ts[i] == t;
      assert us[i] in us;
    }
    forall t | t in us
      ensures TermPair(t, sh.derived, sh.parent).Some? && TermPair(t, sh.derived, sh.parent).value in sh.keys
    {
      var i :| 0 <= i < |us| && us[i] == t;
      assert ts[i] in ts;
    }
  }

  // The pre-aggregated rows: one per key that occurs, with the totals of its rows.

  function KeyOf(sh: Shape, r: Row): seq<Value> {
    seq(|sh.keys|, i requires 0 <= i < |sh.keys| => Get(r, sh.keys[i].0))
  }

  function ParentKey(sh: Shape, e: Env): seq<Value> {
    seq(|sh.keys|, i requires 0 <= i < |sh.keys| => Get(RowOf(e, sh.parent), sh.keys[i].1))
  }

  predicate Known(k: seq<Value>) { Null !in k }

  lemma {:induction false} KeyMatchIsEquality(sh: Shape, e: Env, r: Row)
    ensures KeyMatch(sh, e, r) <==> KeyOf(sh, r) == ParentKey(sh, e) && Known(ParentKey(sh, e))
  {
    var k, p := KeyOf(sh, r), ParentKey(sh, e);
    if KeyMatch(sh, e, r) {
      forall i | 0 <= i < |sh.keys| ensures k[i] == p[i] != Null {
      }
      assert k == p;
      assert forall v :: v in p ==> v != Null;
    }
    if k == p && Known(p) {
      forall i | 0 <= i < |sh.keys|
        ensures Compare(Eq, Get(r, sh.keys[i].0), Get(RowOf(e, sh.parent), sh.keys[i].1)) == Bool(true)
      {
        assert k[i] == p[i] && p[i] in p;
      }
      assert KeyMatch(sh, e, r);
    }
  }

  lemma {:induction false} PreKept(sh: Shape, c: Context)
    requires Proper(sh)
    ensures var q := PreAggregated(sh);
            Kept(q, c, map[]) == Map(SourceRows(Named(sh.table), c, map[]), Extend(map[], sh.source))
    ensures forall r :: GroupKey(PreAggregated(sh), c)(map[sh.source := r]) == KeyOf(sh, r)
  {
    var q := PreAggregated(sh);
    assert Visible(q, map[]) == map[];
    var froms := FromRows(q.from, c, map[]);
    assert Map(froms, Above(map[])) == froms by {
      forall e: Env ensures map[] + e == e {
      }
    }
    forall e | e in froms ensures Holds(TRUE, c)(e) {
      assert Eval(TRUE, c, e, []) == Bool(true);
    }
    FilterAll(froms, Holds(TRUE, c));
    forall r ensures GroupKey(q, c)(map[sh.source := r]) == KeyOf(sh, r) {
      var e: Env := map[sh.source := r];
      forall i | 0 <= i < |sh.keys| ensures GroupValue(q, i, c, e) == Get(r, sh.keys[i].0) {
        assert q.group.keys[i] == ByExpr(Col(sh.source, sh.keys[i].0));
        assert Eval(Col(sh.source, sh.keys[i].0), c, e, []) == Get(r, sh.keys[i].0);
      }
    }
  }

  function NumCountOf(column: string): Row -> int { (r: Row) => IsNum(Get(r, column)) }

  function NumTotalOf(column: string): Row -> int { (r: Row) => NumOf(Get(r, column)) }

  /** SUM(column) over rows. */
  function SumOver(rows: seq<Row>, column: string): Value {
    SumOf(Total(rows, NumCountOf(column)), Total(rows, NumTotalOf(column)))
  }

  function ColumnOf(column: string): Row -> Value { (r: Row) => Get(r, column) }

  lemma {:induction false} SumOfColumn(rows: seq<Row>, alias: string, column: string, c: Context, e: Env)
    ensures Eval(Agg(Sum, Col(alias, column)), c, e, Map(rows, Extend(map[], alias))) == SumOver(rows, column)
  {
    var group := Map(rows, Extend(map[], alias));
    var vs := Map(group, ValueOf(Col(alias, column), c));
    forall i | 0 <= i < |rows| ensures vs[i] == Get(rows[i], column) {
      assert group[i] == map[alias := rows[i]];
      assert Eval(Col(alias, column), c, group[i], []) == Get(RowOf(group[i], alias), column);
    }
    assert vs == Map(rows, ColumnOf(column));
    TotalMap(rows, ColumnOf(column), IsNum);
    TotalMap(rows, ColumnOf(column), NumOf);
    TotalCong(rows, Compose(ColumnOf(column), IsNum), NumCountOf(column));
    TotalCong(rows, Compose(ColumnOf(column), NumOf), NumTotalOf(column));
  }

  function RowsOfKey(sh: Shape, k: seq<Value>): Row -> bool { (r: Row) => KeyOf(sh, r) == k }

  /** One pre-aggregated row: its key columns, and the total of each measure over the rows of that key. */
  predicate TotalsRow(sh: Shape, d: Row, k: seq<Value>, rows: seq<Row>)
    requires |k| == |sh.keys| && |sh.sums| == |sh.measures|
  {
    && KeyOf(sh, d) == k
    && forall m :: 0 <= m < |sh.measures| ==> Get(d, sh.sums[m]) == SumOver(rows, sh.measures[m])
  }

  function PreGroupKeys(sh: Shape, c: Context): seq<seq<Value>>
    requires |sh.sums| == |sh.measures|
  {
    Distinct(Map(Kept(PreAggregated(sh), c, map[]), GroupKey(PreAggregated(sh), c)))
  }

  lemma {:induction false} PreGroup(sh: Shape, c: Context, k: seq<Value>)
    requires Proper(sh)
    ensures Filter(Kept(PreAggregated(sh), c, map[]), Having(GroupKey(PreAggregated(sh), c), k))
         == Map(Filter(SourceRows(Named(sh.table), c, map[]), RowsOfKey(sh, k)), Extend(map[], sh.source))
  {
    var q, rows := PreAggregated(sh), SourceRows(Named(sh.table), c, map[]);
    PreKept(sh, c);
    FilterMap(rows, Extend(map[], sh.source), Having(GroupKey(q, c), k));
    FilterCong(rows, Compose(Extend(map[], sh.source), Having(GroupKey(q, c), k)), RowsOfKey(sh, k));
  }

  lemma {:induction false} PreOutput(sh: Shape, c: Context, rows: seq<Row>, k: seq<Value>)
    requires Proper(sh) && rows != [] && |k| == |sh.keys| && KeyOf(sh, rows[0]) == k
    ensures var g := Map(rows, Extend(map[], sh.source));
            TotalsRow(sh, OutputRow(PreItems(sh), c, g[0], g), k, rows)
  {
    var g, items := Map(rows, Extend(map[], sh.source)), PreItems(sh);
    var d := OutputRow(items, c, g[0], g);
    forall j | 0 <= j < |sh.keys| ensures Get(d, sh.keys[j].0) == k[j] {
      assert items[j] == Item(sh.keys[j].0, Col(sh.source, sh.keys[j].0));
      RowKeys.OutputAt(items, j, c, g[0], g);
      assert Eval(items[j].e, c, g[0], g) == Get(rows[0], sh.keys[j].0);
    }
    assert KeyOf(sh, d) == k;
    forall m | 0 <= m < |sh.measures| ensures Get(d, sh.sums[m]) == SumOver(rows, sh.measures[m]) {
      var at := |sh.keys| + m;
      assert items[at] == Item(sh.sums[m], Agg(Sum, Col(sh.source, sh.measures[m])));
      RowKeys.OutputAt(items, at, c, g[0], g);
      SumOfColumn(rows, sh.source, sh.measures[m], c, g[0]);
    }
  }

  lemma {:induction false} PreRow(sh: Shape, c: Context, i: nat)
    requires Proper(sh) && i < |PreGroupKeys(sh, c)|
    ensures |Rows(PreAggregated(sh), c, map[])| == |PreGroupKeys(sh, c)|
    ensures |PreGroupKeys(sh, c)[i]| == |sh.keys|
    ensures TotalsRow(sh, Rows(PreAggregated(sh), c, map[])[i], PreGroupKeys(sh, c)[i],
                      Filter(SourceRows(Named(sh.table), c, map[]), RowsOfKey(sh, PreGroupKeys(sh, c)[i])))
  {
    var q, k := PreAggregated(sh), PreGroupKeys(sh, c)[i];
    RowKeys.GroupedRow(q, c, map[], i);
    PreGroup(sh, c, k);
    PreKept(sh, c);
    var rows := Filter(SourceRows(Named(sh.table), c, map[]), RowsOfKey(sh, k));
    var g := Map(rows, Extend(map[], sh.source));
    assert g[0] == map[sh.source := rows[0]];
    assert KeyOf(sh, rows[0]) == k;
    PreOutput(sh, c, rows, k);
  }

  lemma {:induction false} FilterOne<A(!new)>(s: seq<A>, p: A -> bool, i: nat)
    requires i < |s| && forall j :: 0 <= j < |s| ==> (p(s[j]) <==> j == i)
    ensures Filter(s, p) == [s[i]]
  {
    if i == 0 {
      forall x | x in s[1..] ensures !p(x) {
        var j :| 0 <= j < |s[1..]| && s[1..][j] == x;
        assert s[j + 1] == x;
      }
      FilterNone(s[1..], p);
    } else {
      FilterOne(s[1..], p, i - 1);
    }
  }

  lemma {:induction false} JoinedTotals(sh: Shape, c: Context, e: Env, i: nat)
    requires Proper(sh) && i < |PreGroupKeys(sh, c)|
    ensures |Rows(PreAggregated(sh), c, map[])| == |PreGroupKeys(sh, c)|
    ensures Joins(sh, e)(Rows(PreAggregated(sh), c, map[])[i])
       <==> PreGroupKeys(sh, c)[i] == ParentKey(sh, e) && Known(ParentKey(sh, e))
  {
    PreRow(sh, c, i);
    KeyMatchIsEquality(sh, e, Rows(PreAggregated(sh), c, map[])[i]);
  }

  /** A key occurs among the child rows exactly when it is a group's. */
  lemma {:induction false} PreKeyOccurs(sh: Shape, c: Context, k: seq<Value>)
    requires Proper(sh)
    ensures k in PreGroupKeys(sh, c) <==> exists r :: r in SourceRows(Named(sh.table), c, map[]) && KeyOf(sh, r) == k
  {
    PreKept(sh, c);
    var rows, kept, keyOf := SourceRows(Named(sh.table), c, map[]), Kept(PreAggregated(sh), c, map[]), GroupKey(PreAggregated(sh), c);
    if r :| r in rows && KeyOf(sh, r) == k {
      var j :| 0 <= j < |rows| && rows[j] == r;
      assert Map(kept, keyOf)[j] == k;
    }
    if k in PreGroupKeys(sh, c) {
      var j :| 0 <= j < |kept| && keyOf(kept[j]) == k;
      assert rows[j] in rows && KeyOf(sh, rows[j]) == k;
    }
  }

  /**
   Against one combination: the child rows it joins and the pre-aggregated row it joins.
   There is one such row exactly when there are children, and it holds their totals.
   */
  lemma {:induction false} TotalsOfChildren(sh: Shape, c: Context, e: Env)
    requires Proper(sh)
    ensures Children(sh, c, e) == [] ==> Totals(sh, c, e) == []
    ensures Children(sh, c, e) != [] ==>
              |Totals(sh, c, e)| == 1 && TotalsRow(sh, Totals(sh, c, e)[0], ParentKey(sh, e), Children(sh, c, e))
  {
    var rows, ks, ds := SourceRows(Named(sh.table), c, map[]), PreGroupKeys(sh, c), Rows(PreAggregated(sh), c, map[]);
    var p := ParentKey(sh, e);
    PreLength(sh, c);
    PreKeyOccurs(sh, c, p);
    forall i | 0 <= i < |ks| ensures Joins(sh, e)(ds[i]) <==> ks[i] == p && Known(p) {
      JoinedTotals(sh, c, e, i);
    }
    if Known(p) && p in ks {
      SomeTotals(sh, c, e);
    } else {
      forall d | d in ds ensures !Joins(sh, e)(d) {
        var i :| 0 <= i < |ds| && ds[i] == d;
      }
      FilterNone(ds, Joins(sh, e));
      forall r | r in rows ensures !Joins(sh, e)(r) {
        KeyMatchIsEquality(sh, e, r);
      }
      FilterNone(rows, Joins(sh, e));
    }
  }

  lemma {:induction false} SomeTotals(sh: Shape, c: Context, e: Env)
    requires Proper(sh) && Known(ParentKey(sh, e)) && ParentKey(sh, e) in PreGroupKeys(sh, c)
    ensures Children(sh, c, e) != []
    ensures |Totals(sh, c, e)| == 1 && TotalsRow(sh, Totals(sh, c, e)[0], ParentKey(sh, e), Children(sh, c, e))
  {
    var rows, ks, ds := SourceRows(Named(sh.table), c, map[]), PreGroupKeys(sh, c), Rows(PreAggregated(sh), c, map[]);
    var p := ParentKey(sh, e);
    PreLength(sh, c);
    var i :| 0 <= i < |ks| && ks[i] == p;
    forall j | 0 <= j < |ds| ensures Joins(sh, e)(ds[j]) <==> j == i {
      JoinedTotals(sh, c, e, j);
    }
    FilterOne(ds, Joins(sh, e), i);
    PreRow(sh, c, i);
    forall r | r in rows ensures Joins(sh, e)(r) == RowsOfKey(sh, p)(r) {
      KeyMatchIsEquality(sh, e, r);
    }
    FilterCong(rows, Joins(sh, e), RowsOfKey(sh, p));
    PreKeyOccurs(sh, c, p);
    FilterIn(rows, Joins(sh, e));
    var r :| r in rows && KeyOf(sh, r) == p;
    assert r in Children(sh, c, e);
  }

  lemma PreLength(sh: Shape, c: Context)
    requires Proper(sh)
    ensures |Rows(PreAggregated(sh), c, map[])| == |PreGroupKeys(sh, c)|
  {
    RowKeys.GroupedRow(PreAggregated(sh), c, map[], 0);
  }

  function KeyColumns(sh: Shape): RowKeys.Keys { set k | k in sh.keys :: Some(k.0) }

  lemma {:induction false} PreKeyColumns(sh: Shape)
    requires Proper(sh)
    ensures RowKeys.RowKeysOf(PreAggregated(sh), map[]) == Some(KeyColumns(sh))
  {
    var q := PreAggregated(sh);
    var keys := set key | key in q.group.keys :: RowKeys.KeyName(q.items, key);
    forall i | 0 <= i < |sh.keys| ensures RowKeys.KeyName(q.items, q.group.keys[i]) == Some(sh.keys[i].0) {
      PreKeyName(sh, i);
    }
    forall name | name in KeyColumns(sh) ensures name in keys {
      var k :| k in sh.keys && name == Some(k.0);
      var i :| 0 <= i < |sh.keys| && sh.keys[i] == k;
      assert q.group.keys[i] in q.group.keys;
    }
    forall name | name in keys ensures name in KeyColumns(sh) {
      var key :| key in q.group.keys && name == RowKeys.KeyName(q.items, key);
      var i :| 0 <= i < |q.group.keys| && q.group.keys[i] == key;
      assert sh.keys[i] in sh.keys;
    }
    assert keys == KeyColumns(sh);
    assert RowKeys.RowKeysOf(q, map[]) == Some(keys);
  }

  lemma {:induction false} JoinedOnAllKeys(sh: Shape, on: Expr, k: (string, string))
    requires sh.parent != sh.derived && JoinsOn(on, sh.derived, sh.parent, sh.keys) && k in sh.keys
    ensures k.0 in RowKeys.JoinKeys(RowKeys.Conjuncts(on), sh.derived)
  {
    var t :| t in Terms(on) && TermPair(t, sh.derived, sh.parent) == Some(k);
    TermIsConjunct(on, t);
    assert (t.l, t.r) in RowKeys.Conjuncts(on);
  }

  lemma JoinedKeysDoNotRepeat(sh: Shape, on: Expr)
    requires sh.parent != sh.derived && JoinsOn(on, sh.derived, sh.parent, sh.keys)
    ensures !RowKeys.RepeatsRows(Some(KeyColumns(sh)), RowKeys.JoinKeys(RowKeys.Conjuncts(on), sh.derived))
  {
    forall name | name in KeyColumns(sh)
      ensures name.Some? && name.value in RowKeys.JoinKeys(RowKeys.Conjuncts(on), sh.derived)
    {
      var k :| k in sh.keys && name == Some(k.0);
      JoinedOnAllKeys(sh, on, k);
    }
  }

  /** The validator reads the derived table's keys as its join keys, so it never counts it as repeating. */
  lemma PreAggregatedNeverRepeats(sh: Shape, on: Expr)
    requires Proper(sh) && JoinsOn(on, sh.child, sh.parent, sh.keys)
    ensures RowKeys.RowKeysOf(PreAggregated(sh), map[]) == Some(KeyColumns(sh))
    ensures !RowKeys.RepeatsRows(Some(KeyColumns(sh)),
               RowKeys.JoinKeys(RowKeys.Conjuncts(Renamed(on, sh.child, sh.derived)), sh.derived))
  {
    PreKeyColumns(sh);
    RenamedJoins(on, sh);
    JoinedKeysDoNotRepeat(sh, Renamed(on, sh.child, sh.derived));
  }

  lemma {:induction false} PreKeyName(sh: Shape, i: nat)
    requires Proper(sh) && i < |sh.keys|
    ensures RowKeys.KeyName(PreItems(sh), PreKeys(sh)[i]) == Some(sh.keys[i].0)
  {
    var x := Col(sh.source, sh.keys[i].0);
    assert PreItems(sh)[i] == Item(sh.keys[i].0, x);
    NameOfFound(PreItems(sh), x, i);
    var j := RowKeys.NameOfAt(PreItems(sh), x);
    assert forall m :: |sh.keys| <= m < |PreItems(sh)| ==> PreItems(sh)[m].e.Agg?;
  }

  lemma {:induction false} NameOfFound(items: seq<Item>, x: Expr, i: nat)
    requires i < |items| && items[i].e == x
    ensures RowKeys.NameOf(items, x).Some?
  {
    if items[0].e != x { NameOfFound(items[1..], x, i - 1); }
  }

  lemma {:induction false} TermIsConjunct(x: Expr, t: Expr)
    requires t in Terms(x) && t.Cmp? && t.op.Eq?
    ensures (t.l, t.r) in RowKeys.Conjuncts(x)
  {
    if x.And? {
      if t in Terms(x.l) { TermIsConjunct(x.l, t); } else { TermIsConjunct(x.r, t); }
    }
  }

  // From one combination of the other rows to the combinations with child rows, and to the one with totals.

  function Spread(sh: Shape, c: Context): Env -> seq<Env> {
    (e: Env) => if Children(sh, c, e) == [] then [e] else Map(Children(sh, c, e), Extend(e, sh.child))
  }

  function Attach(sh: Shape, c: Context): Env -> Env
    requires |sh.sums| == |sh.measures|
  {
    (e: Env) => if Totals(sh, c, e) == [] then e else e[sh.derived := Totals(sh, c, e)[0]]
  }

  lemma {:induction false} ParentDecides(sh: Shape, c: Context, e: Env, f: Env)
    requires Proper(sh) && RowOf(e, sh.parent) == RowOf(f, sh.parent)
    ensures Children(sh, c, e) == Children(sh, c, f) && Totals(sh, c, e) == Totals(sh, c, f)
  {
    FilterCong(SourceRows(Named(sh.table), c, map[]), Joins(sh, e), Joins(sh, f));
    FilterCong(Rows(PreAggregated(sh), c, map[]), Joins(sh, e), Joins(sh, f));
  }

  lemma {:induction false} NoParentNoChildren(sh: Shape, c: Context, e: Env)
    requires Proper(sh) && sh.parent !in e
    ensures Children(sh, c, e) == [] && Totals(sh, c, e) == []
  {
    forall r ensures !Joins(sh, e)(r) {
      assert Get(RowOf(e, sh.parent), sh.keys[0].1) == Null;
    }
    FilterNone(SourceRows(Named(sh.table), c, map[]), Joins(sh, e));
    FilterNone(Rows(PreAggregated(sh), c, map[]), Joins(sh, e));
  }

  lemma {:induction false} MatchesOfKeys(sh: Shape, alias: string, on: Expr, rows: seq<Row>, c: Context, e: Env)
    requires alias != sh.parent && JoinsOn(on, alias, sh.parent, sh.keys)
    ensures Matches(e, alias, rows, HoldsAbove(on, c, map[])) == Map(Filter(rows, Joins(sh, e)), Extend(e, alias))
  {
    var ok := HoldsAbove(on, c, map[]);
    FilterMap(rows, Extend(e, alias), ok);
    forall r | r in rows ensures Compose(Extend(e, alias), ok)(r) == Joins(sh, e)(r) {
      assert map[] + e[alias := r] == e[alias := r];
      JoinMeaning(on, sh.(child := alias), c, e, r);
    }
    FilterCong(rows, Compose(Extend(e, alias), ok), Joins(sh, e));
  }

  lemma {:induction false} FlatMapSingle<A(!new), B(!new)>(s: seq<A>, f: A -> seq<B>, g: A -> B)
    requires forall x :: x in s ==> f(x) == [g(x)]
    ensures FlatMap(s, f) == Map(s, g)
  {
    if s != [] {
      assert s[0] in s;
      FlatMapSingle(s[1..], f, g);
      assert Map(s, g) == [g(s[0])] + Map(s[1..], g);
    }
  }

  lemma AtMostOneTotals(sh: Shape, c: Context, e: Env)
    requires Proper(sh)
    ensures |Totals(sh, c, e)| <= 1
  {
    TotalsOfChildren(sh, c, e);
  }

  lemma {:induction false} ChildJoin(f: From, sh: Shape, c: Context)
    requires Proper(sh) && SupportedFrom(f, sh) && f.alias == sh.child
    ensures FromRows(f, c, map[]) == FlatMap(FromRows(f.left, c, map[]), Spread(sh, c))
  {
    var lefts, rows, on := FromRows(f.left, c, map[]), SourceRows(Named(sh.table), c, map[]), HoldsAbove(f.on, c, map[]);
    forall e | e in lefts ensures OuterStep(sh.child, rows, on)(e) == Spread(sh, c)(e) {
      MatchesOfKeys(sh, sh.child, f.on, rows, c, e);
    }
    FlatMapCong(lefts, OuterStep(sh.child, rows, on), Spread(sh, c));
  }

  lemma TotalsStep(sh: Shape, on: Expr, c: Context, e: Env, ds: seq<Row>)
    requires Proper(sh) && JoinsOn(on, sh.derived, sh.parent, sh.keys) && ds == Rows(PreAggregated(sh), c, map[])
    ensures OuterStep(sh.derived, ds, HoldsAbove(on, c, map[]))(e) == [Attach(sh, c)(e)]
  {
    MatchesOfKeys(sh, sh.derived, on, ds, c, e);
    AtMostOneTotals(sh, c, e);
    var totals := Totals(sh, c, e);
    if totals != [] {
      assert Map(totals, Extend(e, sh.derived)) == [e[sh.derived := totals[0]]];
    }
  }

  lemma {:induction false} TotalsJoin(lefts: seq<Env>, on: Expr, sh: Shape, c: Context)
    requires Proper(sh) && JoinsOn(on, sh.derived, sh.parent, sh.keys)
    ensures FlatMap(lefts, OuterStep(sh.derived, Rows(PreAggregated(sh), c, map[]), HoldsAbove(on, c, map[])))
         == Map(lefts, Attach(sh, c))
  {
    var ds, ok := Rows(PreAggregated(sh), c, map[]), HoldsAbove(on, c, map[]);
    forall e | e in lefts ensures OuterStep(sh.derived, ds, ok)(e) == [Attach(sh, c)(e)] {
      TotalsStep(sh, on, c, e, ds);
    }
    FlatMapSingle(lefts, OuterStep(sh.derived, ds, ok), Attach(sh, c));
  }

  // Later joins see neither the child rows nor their totals.

  ghost predicate Blind(ok: Env -> bool, alias: string) {
    forall e: Env, f: Env {:trigger ok(e), ok(f)} :: Same(e, f, alias) ==> ok(e) == ok(f)
  }

  lemma ConditionBlind(on: Expr, c: Context, alias: string)
    requires ExprFree(on, alias)
    ensures Blind(HoldsAbove(on, c, map[]), alias) && Blind(Holds(on, c), alias)
  {
    forall e: Env, f: Env | Same(e, f, alias)
      ensures HoldsAbove(on, c, map[])(e) == HoldsAbove(on, c, map[])(f) && Holds(on, c)(e) == Holds(on, c)(f)
    {
      SameAbove(map[], map[], e, alias);
      assert map[] + e == e && map[] + f == f;
      EvalSame(on, c, e, f, [], [], alias);
    }
  }

  lemma {:induction false} AttachLater(sh: Shape, c: Context, e: Env, a: string, r: Row)
    requires Proper(sh) && a != sh.parent && a != sh.derived
    ensures Attach(sh, c)(e[a := r]) == Attach(sh, c)(e)[a := r]
    ensures Same(Attach(sh, c)(e), e, sh.derived) && Same(Attach(sh, c)(e)[a := r], e[a := r], sh.derived)
  {
    ParentDecides(sh, c, e, e[a := r]);
    if Totals(sh, c, e) != [] {
      var d := Totals(sh, c, e)[0];
      assert e[a := r][sh.derived := d] == e[sh.derived := d][a := r];
      assert e[sh.derived := d] - {sh.derived} == e - {sh.derived};
      assert e[sh.derived := d][a := r] - {sh.derived} == e[a := r] - {sh.derived};
    }
  }

  lemma {:induction false} MatchesThrough(e: Env, e': Env, a: string, rows: seq<Row>, ok: Env -> bool, att: Env -> Env)
    requires forall r :: r in rows ==> ok(e'[a := r]) == ok(e[a := r]) && e'[a := r] == att(e[a := r])
    ensures Matches(e', a, rows, ok) == Map(Matches(e, a, rows, ok), att)
  {
    FilterMap(rows, Extend(e, a), ok);
    FilterMap(rows, Extend(e', a), ok);
    FilterCong(rows, Compose(Extend(e, a), ok), Compose(Extend(e', a), ok));
    var kept := Filter(rows, Compose(Extend(e, a), ok));
    FilterIn(rows, Compose(Extend(e, a), ok));
    forall i | 0 <= i < |kept| ensures Extend(e', a)(kept[i]) == att(Extend(e, a)(kept[i])) {
      assert kept[i] in kept;
    }
    assert Map(kept, Extend(e', a)) == Map(Map(kept, Extend(e, a)), att);
  }

  lemma {:induction false} AttachMatches(sh: Shape, c: Context, e: Env, a: string, rows: seq<Row>, ok: Env -> bool)
    requires Proper(sh) && a != sh.parent && a != sh.derived && Blind(ok, sh.derived)
    ensures Matches(Attach(sh, c)(e), a, rows, ok) == Map(Matches(e, a, rows, ok), Attach(sh, c))
  {
    var e' := Attach(sh, c)(e);
    forall r | r in rows ensures ok(e'[a := r]) == ok(e[a := r]) && e'[a := r] == Attach(sh, c)(e[a := r]) {
      AttachLater(sh, c, e, a, r);
    }
    MatchesThrough(e, e', a, rows, ok, Attach(sh, c));
  }

  lemma {:induction false} MapConcat<A(!new), B(!new)>(s: seq<A>, t: seq<A>, f: A -> B)
    ensures Map(s + t, f) == Map(s, f) + Map(t, f)
  {
  }

  lemma {:induction false} AttachStep(sh: Shape, c: Context, lefts: seq<Env>, outer: bool, a: string, rows: seq<Row>,
                                      ok: Env -> bool)
    requires Proper(sh) && a != sh.parent && a != sh.derived && Blind(ok, sh.derived)
    ensures var step := if outer then OuterStep(a, rows, ok) else InnerStep(a, rows, ok);
      FlatMap(Map(lefts, Attach(sh, c)), step) == Map(FlatMap(lefts, step), Attach(sh, c))
  {
    if lefts != [] {
      var att, e := Attach(sh, c), lefts[0];
      var step := if outer then OuterStep(a, rows, ok) else InnerStep(a, rows, ok);
      AttachStep(sh, c, lefts[1..], outer, a, rows, ok);
      AttachOne(sh, c, e, outer, a, rows, ok);
      assert Map(lefts, att) == [att(e)] + Map(lefts[1..], att);
      MapConcat(step(e), FlatMap(lefts[1..], step), att);
    }
  }

  lemma AttachOne(sh: Shape, c: Context, e: Env, outer: bool, a: string, rows: seq<Row>, ok: Env -> bool)
    requires Proper(sh) && a != sh.parent && a != sh.derived && Blind(ok, sh.derived)
    ensures var step := if outer then OuterStep(a, rows, ok) else InnerStep(a, rows, ok);
      step(Attach(sh, c)(e)) == Map(step(e), Attach(sh, c))
  {
    AttachMatches(sh, c, e, a, rows, ok);
  }

  lemma AttachSteps(sh: Shape, c: Context, lefts: seq<Env>, a: string, rows: seq<Row>, ok: Env -> bool)
    requires Proper(sh) && a != sh.parent && a != sh.derived && Blind(ok, sh.derived)
    ensures FlatMap(Map(lefts, Attach(sh, c)), InnerStep(a, rows, ok))
         == Map(FlatMap(lefts, InnerStep(a, rows, ok)), Attach(sh, c))
    ensures FlatMap(Map(lefts, Attach(sh, c)), OuterStep(a, rows, ok))
         == Map(FlatMap(lefts, OuterStep(a, rows, ok)), Attach(sh, c))
  {
    AttachStep(sh, c, lefts, false, a, rows, ok);
    AttachStep(sh, c, lefts, true, a, rows, ok);
  }

  lemma {:induction false} AttachUnmatched(sh: Shape, c: Context, lefts: seq<Env>, a: string, rows: seq<Row>, ok: Env -> bool)
    requires Proper(sh) && a != sh.parent && a != sh.derived && Blind(ok, sh.derived)
    ensures Unmatched(Map(lefts, Attach(sh, c)), a, rows, ok) == Map(Unmatched(lefts, a, rows, ok), Attach(sh, c))
  {
    var att := Attach(sh, c);
    forall r | r in rows ensures Matched(r, a, Map(lefts, att), ok) == Matched(r, a, lefts, ok) {
      forall e | e in lefts ensures ok(att(e)[a := r]) == ok(e[a := r]) {
        AttachLater(sh, c, e, a, r);
      }
      if Matched(r, a, lefts, ok) {
        var e :| e in lefts && ok(e[a := r]);
        RowKeys.MapIn(lefts, att, e);
      }
    }
    FilterCong(rows, Lonely(a, Map(lefts, att), ok), Lonely(a, lefts, ok));
    forall r: Row ensures att(map[a := r]) == map[a := r] {
      NoParentNoChildren(sh, c, map[a := r]);
    }
    assert Unmatched(lefts, a, rows, ok) == Map(Unmatched(lefts, a, rows, ok), att);
  }

  lemma {:induction false} SupportedAliases(f: From, sh: Shape)
    requires SupportedFrom(f, sh) && DistinctAliases(f)
    ensures sh.child in Aliases(f) && sh.parent in Aliases(f)
    ensures f.alias != sh.child ==> f.alias != sh.parent
  {
    if f.alias != sh.child { SupportedAliases(f.left, sh); }
  }

  lemma {:induction false} AttachJoin(sh: Shape, c: Context, k: JoinKind, lefts: seq<Env>, a: string, rows: seq<Row>,
                                      ok: Env -> bool)
    requires Proper(sh) && a != sh.parent && a != sh.derived && Blind(ok, sh.derived)
    ensures JoinRows(k, Map(lefts, Attach(sh, c)), a, rows, ok) == Map(JoinRows(k, lefts, a, rows, ok), Attach(sh, c))
  {
    var att := Attach(sh, c);
    AttachSteps(sh, c, lefts, a, rows, ok);
    AttachUnmatched(sh, c, lefts, a, rows, ok);
    MapConcat(FlatMap(lefts, InnerStep(a, rows, ok)), Unmatched(lefts, a, rows, ok), att);
    MapConcat(FlatMap(lefts, OuterStep(a, rows, ok)), Unmatched(lefts, a, rows, ok), att);
  }

  /** The rewritten FROM list: the combinations without the child, each with its totals. */
  lemma {:induction false} NewFromRows(f: From, sh: Shape, c: Context)
    requires Proper(sh) && SupportedFrom(f, sh) && DistinctAliases(f) && sh.derived !in Aliases(f)
    ensures FromRows(NewFrom(f, sh), c, map[]) == Map(FromRows(BaseFrom(f, sh), c, map[]), Attach(sh, c))
  {
    if f.alias == sh.child {
      RenamedJoins(f.on, sh);
      TotalsJoin(FromRows(f.left, c, map[]), Renamed(f.on, sh.child, sh.derived), sh, c);
    } else {
      NewFromRows(f.left, sh, c);
      SupportedAliases(f, sh);
      ConditionBlind(f.on, c, sh.derived);
      AttachJoin(sh, c, f.kind, FromRows(BaseFrom(f.left, sh), c, map[]), f.alias, SourceRows(f.src, c, map[]),
                 HoldsAbove(f.on, c, map[]));
    }
  }

  // The original FROM list, summed: any total over it is a total over the combinations without the child.

  function StepTotal(outer: bool, a: string, rows: seq<Row>, ok: Env -> bool, g: Env -> int): Env -> int {
    TotalOf(if outer then OuterStep(a, rows, ok) else InnerStep(a, rows, ok), g)
  }

  lemma SpreadLater(sh: Shape, c: Context, e: Env, a: string, r: Row)
    requires Proper(sh) && a != sh.parent && a != sh.child
    ensures Spread(sh, c)(e[a := r])
         == if Children(sh, c, e) == [] then [e[a := r]] else Map(Children(sh, c, e), Extend(e[a := r], sh.child))
  {
    ParentDecides(sh, c, e, e[a := r]);
  }

  lemma SpreadSame(sh: Shape, c: Context, e: Env, x: Env)
    requires x in Spread(sh, c)(e)
    ensures Same(x, e, sh.child)
  {
    if Children(sh, c, e) != [] {
      var i :| 0 <= i < |Children(sh, c, e)| && x == e[sh.child := Children(sh, c, e)[i]];
      assert x - {sh.child} == e - {sh.child};
    }
  }

  lemma SameExtended(e: Env, x: Env, alias: string, a: string, r: Row)
    requires Same(x, e, alias) && a != alias
    ensures Same(x[a := r], e[a := r], alias)
  {
    assert x[a := r] - {alias} == (x - {alias})[a := r];
    assert e[a := r] - {alias} == (e - {alias})[a := r];
  }

  lemma {:induction false} SameJoined(e: Env, x: Env, alias: string, a: string, rows: seq<Row>, ok: Env -> bool)
    requires Same(x, e, alias) && a != alias && Blind(ok, alias)
    ensures Filter(rows, Compose(Extend(x, a), ok)) == Filter(rows, Compose(Extend(e, a), ok))
  {
    forall r | r in rows ensures Compose(Extend(x, a), ok)(r) == Compose(Extend(e, a), ok)(r) {
      SameExtended(e, x, alias, a, r);
      assert ok(x[a := r]) == ok(e[a := r]);
    }
    FilterCong(rows, Compose(Extend(x, a), ok), Compose(Extend(e, a), ok));
  }

  lemma TotalOne<A(!new)>(x: A, g: A -> int)
    ensures Total([x], g) == g(x)
  {
    assert [x][1..] == [];
  }

  /** Each child row, then each joined row, or the other way round. */
  function Twice(e: Env, child: string, a: string, g: Env -> int): (Row, Row) -> int {
    (r: Row, s: Row) => g(e[child := r][a := s])
  }

  lemma {:induction false} JoinedTotal(e: Env, a: string, rows: seq<Row>, ok: Env -> bool, g: Env -> int)
    ensures Total(Matches(e, a, rows, ok), g) == Total(Filter(rows, Compose(Extend(e, a), ok)), Compose(Extend(e, a), g))
  {
    FilterMap(rows, Extend(e, a), ok);
    TotalMap(Filter(rows, Compose(Extend(e, a), ok)), Extend(e, a), g);
  }

  lemma {:induction false} OneChildThenJoin(child: string, e: Env, r: Row, a: string, rows: seq<Row>, ok: Env -> bool, g: Env -> int)
    requires a != child && Blind(ok, child)
    ensures Total(Matches(e[child := r], a, rows, ok), g)
         == Rowwise(Filter(rows, Compose(Extend(e, a), ok)), Twice(e, child, a, g))(r)
  {
    var x, joined := e[child := r], Filter(rows, Compose(Extend(e, a), ok));
    assert x - {child} == e - {child};
    JoinedTotal(x, a, rows, ok, g);
    SameJoined(e, x, child, a, rows, ok);
    TotalCong(joined, Compose(Extend(x, a), g), Fix1(Twice(e, child, a, g), r));
  }

  lemma {:induction false} SpreadThenJoin(sh: Shape, c: Context, e: Env, a: string, rows: seq<Row>, ok: Env -> bool, g: Env -> int)
    requires Proper(sh) && a != sh.parent && a != sh.child && Blind(ok, sh.child) && Children(sh, c, e) != []
    ensures Total(Spread(sh, c)(e), StepTotal(false, a, rows, ok, g))
         == Total(Children(sh, c, e), Rowwise(Filter(rows, Compose(Extend(e, a), ok)), Twice(e, sh.child, a, g)))
  {
    var kids, joined := Children(sh, c, e), Filter(rows, Compose(Extend(e, a), ok));
    var step := StepTotal(false, a, rows, ok, g);
    TotalMap(kids, Extend(e, sh.child), step);
    forall r | r in kids
      ensures Compose(Extend(e, sh.child), step)(r) == Rowwise(joined, Twice(e, sh.child, a, g))(r)
    {
      OneChildThenJoin(sh.child, e, r, a, rows, ok, g);
    }
    TotalCong(kids, Compose(Extend(e, sh.child), step), Rowwise(joined, Twice(e, sh.child, a, g)));
  }

  lemma {:induction false} ExtendTwice(kids: seq<Row>, e: Env, child: string, a: string, s: Row, g: Env -> int)
    requires a != child
    ensures Total(kids, Compose(Extend(e[a := s], child), g)) == Total(kids, Fix2(Twice(e, child, a, g), s))
  {
    forall r | r in kids ensures Compose(Extend(e[a := s], child), g)(r) == Fix2(Twice(e, child, a, g), s)(r) {
      assert e[a := s][child := r] == e[child := r][a := s];
    }
    TotalCong(kids, Compose(Extend(e[a := s], child), g), Fix2(Twice(e, child, a, g), s));
  }

  lemma {:induction false} OneJoinThenSpread(sh: Shape, c: Context, e: Env, s: Row, a: string, g: Env -> int)
    requires Proper(sh) && a != sh.parent && a != sh.child && Children(sh, c, e) != []
    ensures TotalOf(Spread(sh, c), g)(e[a := s]) == Columnwise(Children(sh, c, e), Twice(e, sh.child, a, g))(s)
  {
    var kids, x := Children(sh, c, e), e[a := s];
    SpreadLater(sh, c, e, a, s);
    TotalMap(kids, Extend(x, sh.child), g);
    ExtendTwice(kids, e, sh.child, a, s, g);
  }

  lemma {:induction false} JoinThenSpread(sh: Shape, c: Context, e: Env, a: string, rows: seq<Row>, ok: Env -> bool, g: Env -> int)
    requires Proper(sh) && a != sh.parent && a != sh.child && Children(sh, c, e) != []
    ensures Total(Matches(e, a, rows, ok), TotalOf(Spread(sh, c), g))
         == Total(Filter(rows, Compose(Extend(e, a), ok)), Columnwise(Children(sh, c, e), Twice(e, sh.child, a, g)))
  {
    var kids, joined := Children(sh, c, e), Filter(rows, Compose(Extend(e, a), ok));
    JoinedTotal(e, a, rows, ok, TotalOf(Spread(sh, c), g));
    forall s | s in joined
      ensures Compose(Extend(e, a), TotalOf(Spread(sh, c), g))(s) == Columnwise(kids, Twice(e, sh.child, a, g))(s)
    {
      OneJoinThenSpread(sh, c, e, s, a, g);
    }
    TotalCong(joined, Compose(Extend(e, a), TotalOf(Spread(sh, c), g)), Columnwise(kids, Twice(e, sh.child, a, g)));
  }

  /** Joining in a further source before or after the child rows totals to the same. */
  lemma {:induction false} SpreadInner(sh: Shape, c: Context, e: Env, a: string, rows: seq<Row>, ok: Env -> bool, g: Env -> int)
    requires Proper(sh) && a != sh.parent && a != sh.child && Blind(ok, sh.child)
    ensures Total(Spread(sh, c)(e), StepTotal(false, a, rows, ok, g))
         == Total(Matches(e, a, rows, ok), TotalOf(Spread(sh, c), g))
  {
    var kids, joined := Children(sh, c, e), Filter(rows, Compose(Extend(e, a), ok));
    if kids == [] {
      FilterMap(rows, Extend(e, a), ok);
      forall x | x in Matches(e, a, rows, ok) ensures g(x) == TotalOf(Spread(sh, c), g)(x) {
        var i :| 0 <= i < |joined| && x == e[a := joined[i]];
        SpreadLater(sh, c, e, a, joined[i]);
        TotalOne(x, g);
      }
      TotalOne(e, StepTotal(false, a, rows, ok, g));
      TotalCong(Matches(e, a, rows, ok), g, TotalOf(Spread(sh, c), g));
    } else {
      SpreadThenJoin(sh, c, e, a, rows, ok, g);
      JoinThenSpread(sh, c, e, a, rows, ok, g);
      TotalSwap(kids, joined, Twice(e, sh.child, a, g));
    }
  }

  lemma {:induction false} SpreadOuter(sh: Shape, c: Context, e: Env, a: string, rows: seq<Row>, ok: Env -> bool, g: Env -> int)
    requires Proper(sh) && a != sh.parent && a != sh.child && Blind(ok, sh.child)
    ensures Total(Spread(sh, c)(e), StepTotal(true, a, rows, ok, g))
         == Total(OuterStep(a, rows, ok)(e), TotalOf(Spread(sh, c), g))
  {
    var found := Matches(e, a, rows, ok);
    forall x | x in Spread(sh, c)(e) ensures Matches(x, a, rows, ok) == [] <==> found == [] {
      SpreadSame(sh, c, e, x);
      SameJoined(e, x, sh.child, a, rows, ok);
      FilterMap(rows, Extend(x, a), ok);
      FilterMap(rows, Extend(e, a), ok);
    }
    if found == [] {
      forall x | x in Spread(sh, c)(e) ensures StepTotal(true, a, rows, ok, g)(x) == g(x) {
        TotalOne(x, g);
      }
      TotalOne(e, TotalOf(Spread(sh, c), g));
      TotalCong(Spread(sh, c)(e), StepTotal(true, a, rows, ok, g), g);
      assert OuterStep(a, rows, ok)(e) == [e];
    } else {
      TotalCong(Spread(sh, c)(e), StepTotal(true, a, rows, ok, g), StepTotal(false, a, rows, ok, g));
      SpreadInner(sh, c, e, a, rows, ok, g);
    }
  }

  /** `lefts` and `spread` have the same totals, once each of `lefts` is replaced by its child rows. */
  ghost predicate SpreadOf(sh: Shape, c: Context, spread: seq<Env>, lefts: seq<Env>) {
    forall g: Env -> int {:trigger Total(spread, g)} :: Total(spread, g) == Total(lefts, TotalOf(Spread(sh, c), g))
  }

  lemma {:induction false} SpreadSteps(sh: Shape, c: Context, spread: seq<Env>, lefts: seq<Env>, outer: bool, a: string,
                                       rows: seq<Row>, ok: Env -> bool, g: Env -> int)
    requires Proper(sh) && a != sh.parent && a != sh.child && Blind(ok, sh.child) && SpreadOf(sh, c, spread, lefts)
    ensures var step := if outer then OuterStep(a, rows, ok) else InnerStep(a, rows, ok);
            Total(FlatMap(spread, step), g) == Total(FlatMap(lefts, step), TotalOf(Spread(sh, c), g))
  {
    var step := if outer then OuterStep(a, rows, ok) else InnerStep(a, rows, ok);
    TotalFlatMap(spread, step, g);
    assert Total(spread, StepTotal(outer, a, rows, ok, g))
        == Total(lefts, TotalOf(Spread(sh, c), StepTotal(outer, a, rows, ok, g)));
    TotalFlatMap(lefts, step, TotalOf(Spread(sh, c), g));
    forall e | e in lefts
      ensures TotalOf(Spread(sh, c), StepTotal(outer, a, rows, ok, g))(e) == TotalOf(step, TotalOf(Spread(sh, c), g))(e)
    {
      if outer { SpreadOuter(sh, c, e, a, rows, ok, g); } else { SpreadInner(sh, c, e, a, rows, ok, g); }
    }
    TotalCong(lefts, TotalOf(Spread(sh, c), StepTotal(outer, a, rows, ok, g)), TotalOf(step, TotalOf(Spread(sh, c), g)));
  }

  function Indicator(a: string, r: Row, ok: Env -> bool): Env -> int {
    (e: Env) => if ok(e[a := r]) then 1 else 0
  }

  lemma MatchedByTotal(lefts: seq<Env>, a: string, r: Row, ok: Env -> bool)
    ensures Matched(r, a, lefts, ok) <==> Total(lefts, Indicator(a, r, ok)) > 0
  {
    TotalPositive(lefts, Indicator(a, r, ok));
    assert forall e :: e in lefts ==> (Indicator(a, r, ok)(e) == 0 <==> !ok(e[a := r]));
  }

  lemma {:induction false} SpreadHits(sh: Shape, c: Context, e: Env, a: string, r: Row, ok: Env -> bool)
    requires a != sh.child && Blind(ok, sh.child)
    ensures TotalOf(Spread(sh, c), Indicator(a, r, ok))(e) >= 0
    ensures TotalOf(Spread(sh, c), Indicator(a, r, ok))(e) == 0 <==> Indicator(a, r, ok)(e) == 0
  {
    var hit, xs := Indicator(a, r, ok), Spread(sh, c)(e);
    forall x | x in xs ensures hit(x) == hit(e) {
      SpreadSame(sh, c, e, x);
      SameExtended(e, x, sh.child, a, r);
      BlindSame(ok, sh.child, x[a := r], e[a := r]);
    }
    TotalConstant(xs, hit, hit(e));
  }

  lemma BlindSame(ok: Env -> bool, alias: string, e: Env, f: Env)
    requires Blind(ok, alias) && Same(e, f, alias)
    ensures ok(e) == ok(f)
  {
  }

  lemma TotalConstant(xs: seq<Env>, g: Env -> int, v: int)
    requires xs != [] && v >= 0 && forall x :: x in xs ==> g(x) == v
    ensures Total(xs, g) >= 0 && (Total(xs, g) == 0 <==> v == 0)
  {
    TotalPositive(xs, g);
    assert xs[0] in xs;
  }

  lemma {:induction false} SpreadMatched(sh: Shape, c: Context, spread: seq<Env>, lefts: seq<Env>, a: string, r: Row,
                                         ok: Env -> bool)
    requires a != sh.child && Blind(ok, sh.child) && SpreadOf(sh, c, spread, lefts)
    ensures Matched(r, a, spread, ok) == Matched(r, a, lefts, ok)
  {
    var hit := Indicator(a, r, ok);
    MatchedByTotal(spread, a, r, ok);
    MatchedByTotal(lefts, a, r, ok);
    assert Total(spread, hit) == Total(lefts, TotalOf(Spread(sh, c), hit));
    forall e | e in lefts
      ensures TotalOf(Spread(sh, c), hit)(e) >= 0 && (TotalOf(Spread(sh, c), hit)(e) == 0 <==> hit(e) == 0)
    {
      SpreadHits(sh, c, e, a, r, ok);
    }
    TotalPositive(lefts, hit);
    TotalPositive(lefts, TotalOf(Spread(sh, c), hit));
  }

  lemma {:induction false} SpreadUnmatched(sh: Shape, c: Context, spread: seq<Env>, lefts: seq<Env>, a: string,
                                           rows: seq<Row>, ok: Env -> bool, g: Env -> int)
    requires Proper(sh) && a != sh.parent && a != sh.child && Blind(ok, sh.child) && SpreadOf(sh, c, spread, lefts)
    ensures Total(Unmatched(spread, a, rows, ok), g) == Total(Unmatched(lefts, a, rows, ok), TotalOf(Spread(sh, c), g))
  {
    forall r | r in rows ensures Lonely(a, spread, ok)(r) == Lonely(a, lefts, ok)(r) {
      SpreadMatched(sh, c, spread, lefts, a, r, ok);
    }
    FilterCong(rows, Lonely(a, spread, ok), Lonely(a, lefts, ok));
    var alone := Unmatched(lefts, a, rows, ok);
    forall x | x in alone ensures g(x) == TotalOf(Spread(sh, c), g)(x) {
      assert sh.parent !in x;
      NoParentNoChildren(sh, c, x);
      TotalOne(x, g);
    }
    TotalCong(alone, g, TotalOf(Spread(sh, c), g));
  }

  lemma {:induction false} SpreadJoinTotal(sh: Shape, c: Context, k: JoinKind, spread: seq<Env>, lefts: seq<Env>, a: string,
                                           rows: seq<Row>, ok: Env -> bool, g: Env -> int)
    requires Proper(sh) && a != sh.parent && a != sh.child && Blind(ok, sh.child) && SpreadOf(sh, c, spread, lefts)
    ensures Total(JoinRows(k, spread, a, rows, ok), g) == Total(JoinRows(k, lefts, a, rows, ok), TotalOf(Spread(sh, c), g))
  {
    SpreadSteps(sh, c, spread, lefts, k.LeftOuter? || k.FullOuter?, a, rows, ok, g);
    if k.RightOuter? || k.FullOuter? {
      SpreadUnmatched(sh, c, spread, lefts, a, rows, ok, g);
      var step := if k.FullOuter? then OuterStep(a, rows, ok) else InnerStep(a, rows, ok);
      JoinTotal(k, spread, a, rows, ok, g);
      JoinTotal(k, lefts, a, rows, ok, TotalOf(Spread(sh, c), g));
    }
  }

  lemma JoinTotal(k: JoinKind, lefts: seq<Env>, a: string, rows: seq<Row>, ok: Env -> bool, g: Env -> int)
    requires k.RightOuter? || k.FullOuter?
    ensures Total(JoinRows(k, lefts, a, rows, ok), g)
         == Total(FlatMap(lefts, if k.FullOuter? then OuterStep(a, rows, ok) else InnerStep(a, rows, ok)), g)
            + Total(Unmatched(lefts, a, rows, ok), g)
  {
    var step := if k.FullOuter? then OuterStep(a, rows, ok) else InnerStep(a, rows, ok);
    TotalConcat(FlatMap(lefts, step), Unmatched(lefts, a, rows, ok), g);
  }

  lemma {:induction false} SpreadJoin(sh: Shape, c: Context, k: JoinKind, spread: seq<Env>, lefts: seq<Env>, a: string,
                                      rows: seq<Row>, ok: Env -> bool)
    requires Proper(sh) && a != sh.parent && a != sh.child && Blind(ok, sh.child) && SpreadOf(sh, c, spread, lefts)
    ensures SpreadOf(sh, c, JoinRows(k, spread, a, rows, ok), JoinRows(k, lefts, a, rows, ok))
  {
    forall g: Env -> int
      ensures Total(JoinRows(k, spread, a, rows, ok), g) == Total(JoinRows(k, lefts, a, rows, ok), TotalOf(Spread(sh, c), g))
    {
      SpreadJoinTotal(sh, c, k, spread, lefts, a, rows, ok, g);
    }
  }

  lemma {:induction false} OldFromRows(f: From, sh: Shape, c: Context)
    requires Proper(sh) && SupportedFrom(f, sh) && DistinctAliases(f)
    ensures SpreadOf(sh, c, FromRows(f, c, map[]), FromRows(BaseFrom(f, sh), c, map[]))
  {
    if f.alias == sh.child {
      ChildJoin(f, sh, c);
      forall g: Env -> int
        ensures Total(FromRows(f, c, map[]), g) == Total(FromRows(f.left, c, map[]), TotalOf(Spread(sh, c), g))
      {
        TotalFlatMap(FromRows(f.left, c, map[]), Spread(sh, c), g);
      }
    } else {
      OldFromRows(f.left, sh, c);
      SupportedAliases(f, sh);
      ConditionBlind(f.on, c, sh.child);
      SpreadJoin(sh, c, f.kind, FromRows(f.left, c, map[]), FromRows(BaseFrom(f.left, sh), c, map[]), f.alias,
                 SourceRows(f.src, c, map[]), HoldsAbove(f.on, c, map[]));
    }
  }

  // The rewritten query.

  predicate IsKey(sh: Shape, column: string) {
    exists i :: 0 <= i < |sh.keys| && sh.keys[i].0 == column
  }

  predicate IsMeasureSum(sh: Shape, x: Expr) {
    x.Agg? && x.f.Sum? && x.e.Col? && x.e.alias == sh.child && x.e.name in sh.measures
  }

  function SumName(measures: seq<string>, sums: seq<string>, column: string): string
    requires |sums| == |measures| && column in measures
  {
    if measures[0] == column then sums[0] else SumName(measures[1..], sums[1..], column)
  }

  /** An output expression uses the child only through its key columns and summed measures. */
  predicate UsesChildWell(x: Expr, sh: Shape) {
    match x
    case Lit(_) => true
    case Col(a, n) => (a == sh.child ==> IsKey(sh, n)) && a != sh.derived
    case Cmp(_, l, r) => UsesChildWell(l, sh) && UsesChildWell(r, sh)
    case InList(y, _) => UsesChildWell(y, sh)
    case IsNull(y) => UsesChildWell(y, sh)
    case Plus(l, r) => UsesChildWell(l, sh) && UsesChildWell(r, sh)
    case Cast(_, y) => UsesChildWell(y, sh)
    case Paren(y) => UsesChildWell(y, sh)
    case Not(y) => UsesChildWell(y, sh)
    case And(l, r) => UsesChildWell(l, sh) && UsesChildWell(r, sh)
    case Or(l, r) => UsesChildWell(l, sh) && UsesChildWell(r, sh)
    case If(t, l, r) => UsesChildWell(t, sh) && UsesChildWell(l, sh) && UsesChildWell(r, sh)
    case Agg(_, y) => IsMeasureSum(sh, x) || UsesChildWell(y, sh)
    case Exists(q) => FreeOf(q, sh.child) && FreeOf(q, sh.derived)
    case InQuery(y, q) => UsesChildWell(y, sh) && FreeOf(q, sh.child) && FreeOf(q, sh.derived)
    case Scalar(q) => FreeOf(q, sh.child) && FreeOf(q, sh.derived)
  }

  function NewExpr(x: Expr, sh: Shape): Expr
    requires |sh.sums| == |sh.measures|
  {
    match x
    case Lit(_) => x
    case Col(a, n) => if a == sh.child then Col(sh.derived, n) else x
    case Cmp(op, l, r) => Cmp(op, NewExpr(l, sh), NewExpr(r, sh))
    case InList(y, vs) => InList(NewExpr(y, sh), vs)
    case IsNull(y) => IsNull(NewExpr(y, sh))
    case Plus(l, r) => Plus(NewExpr(l, sh), NewExpr(r, sh))
    case Cast(k, y) => Cast(k, NewExpr(y, sh))
    case Paren(y) => Paren(NewExpr(y, sh))
    case Not(y) => Not(NewExpr(y, sh))
    case And(l, r) => And(NewExpr(l, sh), NewExpr(r, sh))
    case Or(l, r) => Or(NewExpr(l, sh), NewExpr(r, sh))
    case If(t, l, r) => If(NewExpr(t, sh), NewExpr(l, sh), NewExpr(r, sh))
    case Agg(f, y) =>
      if IsMeasureSum(sh, x) then Agg(Sum, Col(sh.derived, SumName(sh.measures, sh.sums, y.name)))
      else Agg(f, NewExpr(y, sh))
    case Exists(_) => x
    case InQuery(y, q) => InQuery(NewExpr(y, sh), q)
    case Scalar(_) => x
  }

  function NewItems(items: seq<Item>, sh: Shape): (r: seq<Item>)
    requires |sh.sums| == |sh.measures|
    ensures |r| == |items|
    ensures forall i :: 0 <= i < |r| ==> r[i] == Item(items[i].name, NewExpr(items[i].e, sh))
  {
    seq(|items|, i requires 0 <= i < |items| => Item(items[i].name, NewExpr(items[i].e, sh)))
  }

  /** GROUP BY does not name the child; an output column it names has no aggregate. */
  predicate GroupsWell(q: Query, key: GroupItem, sh: Shape)
    requires q.Select?
  {
    match key
    case ByExpr(x) => ExprFree(x, sh.child) && ExprFree(x, sh.derived)
    case ByName(n) => forall i :: 0 <= i < |q.items| && q.items[i].name == n ==> !HasAgg(q.items[i].e)
  }

  predicate Supported(q: Query, sh: Shape) {
    && Proper(sh) && q.Select? && !q.star
    && SupportedFrom(q.from, sh) && DistinctAliases(q.from) && sh.derived !in Aliases(q.from)
    && ExprFree(q.where, sh.child) && ExprFree(q.where, sh.derived)
    && ExprFree(q.having, sh.child) && ExprFree(q.having, sh.derived)
    && (forall i :: 0 <= i < |q.items| ==> UsesChildWell(q.items[i].e, sh))
    && (q.group.By? ==> forall i :: 0 <= i < |q.group.keys| ==> GroupsWell(q, q.group.keys[i], sh))
  }

  function Rewritten(q: Query, sh: Shape): Query
    requires q.Select? && |sh.sums| == |sh.measures|
  {
    q.(from := NewFrom(q.from, sh), items := NewItems(q.items, sh))
  }

  /** The query without the child join. */
  function WithoutChild(q: Query, sh: Shape): Query
    requires q.Select?
  {
    q.(from := BaseFrom(q.from, sh))
  }

  lemma {:induction false} StepAliases(lefts: seq<Env>, outer: bool, a: string, rows: seq<Row>, ok: Env -> bool, names: set<string>)
    requires forall e :: e in lefts ==> e.Keys <= names
    ensures forall x :: x in FlatMap(lefts, if outer then OuterStep(a, rows, ok) else InnerStep(a, rows, ok)) ==>
              x.Keys <= names + {a}
  {
    var step := if outer then OuterStep(a, rows, ok) else InnerStep(a, rows, ok);
    forall x: Env | x in FlatMap(lefts, step) ensures x.Keys <= names + {a} {
      FlatMapIn(lefts, step, x);
      var e :| e in lefts && x in step(e);
      FilterIn(Map(rows, Extend(e, a)), ok);
    }
  }

  lemma {:induction false} JoinRowsAliases(k: JoinKind, lefts: seq<Env>, a: string, rows: seq<Row>, ok: Env -> bool, names: set<string>)
    requires forall e :: e in lefts ==> e.Keys <= names
    ensures forall x :: x in JoinRows(k, lefts, a, rows, ok) ==> x.Keys <= names + {a}
  {
    StepAliases(lefts, true, a, rows, ok, names);
    StepAliases(lefts, false, a, rows, ok, names);
    assert forall x :: x in Unmatched(lefts, a, rows, ok) ==> x.Keys <= {a};
  }

  lemma {:induction false} FromRowsAliases(f: From, c: Context, base: Env)
    ensures forall x :: x in FromRows(f, c, base) ==> x.Keys <= Aliases(f)
  {
    if f.Join? {
      FromRowsAliases(f.left, c, base);
      JoinRowsAliases(f.kind, FromRows(f.left, c, base), f.alias, SourceRows(f.src, c, base), HoldsAbove(f.on, c, base),
                      Aliases(f.left));
    }
  }

  lemma {:induction false} BaseFromAliases(f: From, sh: Shape)
    requires SupportedFrom(f, sh) && DistinctAliases(f)
    ensures Aliases(BaseFrom(f, sh)) == Aliases(f) - {sh.child}
  {
    if f.alias != sh.child { BaseFromAliases(f.left, sh); }
  }

  lemma {:induction false} KeptAtTop(q: Query, c: Context)
    requires q.Select?
    ensures Kept(q, c, map[]) == Filter(FromRows(q.from, c, map[]), Holds(q.where, c))
  {
    assert Visible(q, map[]) == map[];
    var froms := FromRows(q.from, c, map[]);
    assert Map(froms, Above(map[])) == froms by {
      forall e: Env ensures map[] + e == e {
      }
    }
  }

  /** Each surviving combination of the parent's and the other rows occurs exactly once, with its totals. */
  lemma {:induction false} EachOnce(q: Query, sh: Shape, c: Context)
    requires Supported(q, sh)
    ensures Kept(Rewritten(q, sh), c, map[]) == Map(Kept(WithoutChild(q, sh), c, map[]), Attach(sh, c))
    ensures forall e :: e in Kept(WithoutChild(q, sh), c, map[]) ==> sh.child !in e && sh.derived !in e
  {
    var lefts := FromRows(BaseFrom(q.from, sh), c, map[]);
    KeptAtTop(Rewritten(q, sh), c);
    KeptAtTop(WithoutChild(q, sh), c);
    NewFromRows(q.from, sh, c);
    FilterMap(lefts, Attach(sh, c), Holds(q.where, c));
    ConditionBlind(q.where, c, sh.derived);
    forall e | e in lefts ensures Compose(Attach(sh, c), Holds(q.where, c))(e) == Holds(q.where, c)(e) {
      AttachLater(sh, c, e, sh.child, map[]);
      assert Same(Attach(sh, c)(e), e, sh.derived);
    }
    FilterCong(lefts, Compose(Attach(sh, c), Holds(q.where, c)), Holds(q.where, c));
    FromRowsAliases(BaseFrom(q.from, sh), c, map[]);
    BaseFromAliases(q.from, sh);
    FilterIn(lefts, Holds(q.where, c));
  }

  /** The original query's combinations are those with their child rows. */
  lemma {:induction false} OriginalSpreads(q: Query, sh: Shape, c: Context)
    requires Supported(q, sh)
    ensures SpreadOf(sh, c, Kept(q, c, map[]), Kept(WithoutChild(q, sh), c, map[]))
  {
    var froms, lefts, where := FromRows(q.from, c, map[]), FromRows(BaseFrom(q.from, sh), c, map[]), Holds(q.where, c);
    KeptAtTop(q, c);
    KeptAtTop(WithoutChild(q, sh), c);
    OldFromRows(q.from, sh, c);
    ConditionBlind(q.where, c, sh.child);
    forall g: Env -> int
      ensures Total(Filter(froms, where), g) == Total(Filter(lefts, where), TotalOf(Spread(sh, c), g))
    {
      TotalFilter(froms, where, g);
      TotalFilter(lefts, where, TotalOf(Spread(sh, c), g));
      assert Total(froms, Where(where, g)) == Total(lefts, TotalOf(Spread(sh, c), Where(where, g)));
      forall e | e in lefts
        ensures TotalOf(Spread(sh, c), Where(where, g))(e) == Where(where, TotalOf(Spread(sh, c), g))(e)
      {
        forall x | x in Spread(sh, c)(e) ensures where(x) == where(e) {
          SpreadSame(sh, c, e, x);
        }
        SpreadWhere(sh, c, e, where, g);
      }
      TotalCong(lefts, TotalOf(Spread(sh, c), Where(where, g)), Where(where, TotalOf(Spread(sh, c), g)));
    }
  }

  lemma {:induction false} SpreadWhere(sh: Shape, c: Context, e: Env, p: Env -> bool, g: Env -> int)
    requires forall x :: x in Spread(sh, c)(e) ==> p(x) == p(e)
    ensures Total(Spread(sh, c)(e), Where(p, g)) == if p(e) then Total(Spread(sh, c)(e), g) else 0
  {
    if p(e) {
      TotalCong(Spread(sh, c)(e), Where(p, g), g);
    } else {
      TotalZero(Spread(sh, c)(e), Where(p, g));
    }
  }

  // Groups and sums.

  /** Two ways of keying combinations that agree between a combination's child rows and its totals. */
  ghost predicate KeysAgree<K(!new)>(q: Query, sh: Shape, c: Context, oldKey: Env -> K, newKey: Env -> K)
    requires q.Select? && |sh.sums| == |sh.measures|
  {
    forall e, x :: e in Kept(WithoutChild(q, sh), c, map[]) && x in Spread(sh, c)(e) ==>
      oldKey(x) == newKey(Attach(sh, c)(e))
  }

  lemma {:induction false} SpreadHasOne(sh: Shape, c: Context, e: Env)
    ensures Spread(sh, c)(e) != []
  {
  }

  function KeyHit<K(==)>(keyOf: Env -> K, k: K): Env -> int { (e: Env) => if keyOf(e) == k then 1 else 0 }

  lemma {:induction false} KeyOccurs<K(!new)>(s: seq<Env>, keyOf: Env -> K, k: K)
    ensures k in Map(s, keyOf) <==> Total(s, KeyHit(keyOf, k)) > 0
  {
    TotalPositive(s, KeyHit(keyOf, k));
    if k in Map(s, keyOf) {
      var i :| 0 <= i < |s| && keyOf(s[i]) == k;
      assert s[i] in s && KeyHit(keyOf, k)(s[i]) == 1;
    }
    if e :| e in s && KeyHit(keyOf, k)(e) != 0 {
      RowKeys.MapIn(s, keyOf, e);
    }
  }

  lemma {:induction false} SpreadKeyHits<K(!new)>(sh: Shape, c: Context, e: Env, oldKey: Env -> K, k: K, key: K)
    requires forall x :: x in Spread(sh, c)(e) ==> oldKey(x) == key
    ensures TotalOf(Spread(sh, c), KeyHit(oldKey, k))(e) >= 0
    ensures TotalOf(Spread(sh, c), KeyHit(oldKey, k))(e) > 0 <==> key == k
  {
    TotalPositive(Spread(sh, c)(e), KeyHit(oldKey, k));
    SpreadHasOne(sh, c, e);
    assert Spread(sh, c)(e)[0] in Spread(sh, c)(e);
  }

  lemma {:induction false} HitsAgree(base: seq<Env>, hits: Env -> int, hits': Env -> int)
    requires forall e :: e in base ==> hits(e) >= 0 && hits'(e) >= 0 && (hits(e) == 0 <==> hits'(e) == 0)
    ensures Total(base, hits) >= 0 && Total(base, hits') >= 0
    ensures Total(base, hits) == 0 <==> Total(base, hits') == 0
  {
    TotalPositive(base, hits);
    TotalPositive(base, hits');
  }

  lemma {:induction false} OldKeys<K(!new)>(spread: seq<Env>, base: seq<Env>, sh: Shape, c: Context, oldKey: Env -> K,
                                      baseKey: Env -> K, k: K)
    requires SpreadOf(sh, c, spread, base)
    requires forall e, x :: e in base && x in Spread(sh, c)(e) ==> oldKey(x) == baseKey(e)
    ensures k in Map(spread, oldKey) <==> k in Map(base, baseKey)
  {
    KeyOccurs(spread, oldKey, k);
    KeyOccurs(base, baseKey, k);
    var hits := TotalOf(Spread(sh, c), KeyHit(oldKey, k));
    assert Total(spread, KeyHit(oldKey, k)) == Total(base, hits);
    forall e | e in base ensures hits(e) >= 0 && (hits(e) == 0 <==> KeyHit(baseKey, k)(e) == 0) {
      SpreadKeyHits(sh, c, e, oldKey, k, baseKey(e));
    }
    HitsAgree(base, hits, KeyHit(baseKey, k));
  }

  /** The rewritten query has the same groups before HAVING. */
  lemma {:induction false} SameGroups<K(!new)>(q: Query, sh: Shape, c: Context, oldKey: Env -> K, newKey: Env -> K, k: K)
    requires Supported(q, sh) && KeysAgree(q, sh, c, oldKey, newKey)
    ensures k in Map(Kept(q, c, map[]), oldKey) <==> k in Map(Kept(Rewritten(q, sh), c, map[]), newKey)
  {
    var base, att := Kept(WithoutChild(q, sh), c, map[]), Attach(sh, c);
    OriginalSpreads(q, sh, c);
    OldKeys(Kept(q, c, map[]), base, sh, c, oldKey, Compose(att, newKey), k);
    EachOnce(q, sh, c);
    MapMap(base, att, newKey);
  }

  lemma MapMap<A(!new), B(!new), C(!new)>(s: seq<A>, f: A -> B, g: B -> C)
    ensures Map(Map(s, f), g) == Map(s, Compose(f, g))
  {
  }

  function ChildValue(alias: string, column: string, f: Value -> int): Env -> int {
    (e: Env) => f(Get(RowOf(e, alias), column))
  }

  lemma {:induction false} SumAsTotals(group: seq<Env>, alias: string, column: string, c: Context, e: Env)
    ensures Eval(Agg(Sum, Col(alias, column)), c, e, group)
         == SumOf(Total(group, ChildValue(alias, column, IsNum)), Total(group, ChildValue(alias, column, NumOf)))
  {
    var value := ValueOf(Col(alias, column), c);
    TotalMap(group, value, IsNum);
    TotalMap(group, value, NumOf);
    forall x | x in group ensures value(x) == Get(RowOf(x, alias), column) {
      assert Eval(Col(alias, column), c, x, []) == Get(RowOf(x, alias), column);
    }
    TotalCong(group, Compose(value, IsNum), ChildValue(alias, column, IsNum));
    TotalCong(group, Compose(value, NumOf), ChildValue(alias, column, NumOf));
  }

  function ColumnTotal(column: string, f: Value -> int): Row -> int { (r: Row) => f(Get(r, column)) }

  /** One combination's contribution, over its child rows. */
  lemma {:induction false} SpreadValue(sh: Shape, c: Context, e: Env, column: string, f: Value -> int)
    requires sh.child !in e && f(Null) == 0
    ensures Total(Spread(sh, c)(e), ChildValue(sh.child, column, f)) == Total(Children(sh, c, e), ColumnTotal(column, f))
  {
    var kids, g := Children(sh, c, e), ChildValue(sh.child, column, f);
    if kids == [] {
      TotalOne(e, g);
      assert RowOf(e, sh.child) == map[] && Get(map[], column) == Null && g(e) == f(Null);
    } else {
      TotalMap(kids, Extend(e, sh.child), g);
      forall r | r in kids ensures Compose(Extend(e, sh.child), g)(r) == ColumnTotal(column, f)(r) {
        assert RowOf(e[sh.child := r], sh.child) == r;
      }
      TotalCong(kids, Compose(Extend(e, sh.child), g), ColumnTotal(column, f));
    }
  }

  lemma {:induction false} SumNameAt(measures: seq<string>, sums: seq<string>, column: string) returns (m: nat)
    requires |sums| == |measures| && column in measures
    ensures m < |measures| && measures[m] == column && SumName(measures, sums, column) == sums[m]
  {
    if measures[0] == column { m := 0; } else {
      m := SumNameAt(measures[1..], sums[1..], column);
      m := m + 1;
    }
  }

  /** One combination's contribution, from its pre-aggregated row: the total of its child rows. */
  lemma {:induction false} AttachedValue(sh: Shape, c: Context, e: Env, column: string)
    requires Proper(sh) && sh.derived !in e && column in sh.measures
    ensures Get(RowOf(Attach(sh, c)(e), sh.derived), SumName(sh.measures, sh.sums, column))
         == SumOver(Children(sh, c, e), column)
  {
    TotalsOfChildren(sh, c, e);
    var m := SumNameAt(sh.measures, sh.sums, column);
    if Totals(sh, c, e) != [] {
      assert RowOf(Attach(sh, c)(e), sh.derived) == Totals(sh, c, e)[0];
    }
  }

  lemma {:induction false} NoNumbersNoTotal(rows: seq<Row>, column: string)
    ensures Total(rows, NumCountOf(column)) >= 0
    ensures Total(rows, NumCountOf(column)) == 0 ==> Total(rows, NumTotalOf(column)) == 0
  {
    TotalPositive(rows, NumCountOf(column));
    if Total(rows, NumCountOf(column)) == 0 {
      forall r | r in rows ensures NumTotalOf(column)(r) == 0 {
        assert NumCountOf(column)(r) == 0;
      }
      TotalZero(rows, NumTotalOf(column));
    }
  }

  /** Totals of one group, against the combinations without the child. */
  lemma {:induction false} GroupTotal<K(!new)>(q: Query, sh: Shape, c: Context, oldKey: Env -> K, newKey: Env -> K, k: K,
                                         g: Env -> int)
    requires Supported(q, sh) && KeysAgree(q, sh, c, oldKey, newKey)
    ensures Total(Filter(Kept(q, c, map[]), Having(oldKey, k)), g)
         == Total(Filter(Kept(WithoutChild(q, sh), c, map[]), Having(Compose(Attach(sh, c), newKey), k)), TotalOf(Spread(sh, c), g))
  {
    var base, p, p' := Kept(WithoutChild(q, sh), c, map[]), Having(oldKey, k), Having(Compose(Attach(sh, c), newKey), k);
    OriginalSpreads(q, sh, c);
    TotalFilter(Kept(q, c, map[]), p, g);
    TotalFilter(base, p', TotalOf(Spread(sh, c), g));
    assert Total(Kept(q, c, map[]), Where(p, g)) == Total(base, TotalOf(Spread(sh, c), Where(p, g)));
    forall e | e in base
      ensures TotalOf(Spread(sh, c), Where(p, g))(e) == Where(p', TotalOf(Spread(sh, c), g))(e)
    {
      if p'(e) {
        TotalCong(Spread(sh, c)(e), Where(p, g), g);
      } else {
        TotalZero(Spread(sh, c)(e), Where(p, g));
      }
    }
    TotalCong(base, TotalOf(Spread(sh, c), Where(p, g)), Where(p', TotalOf(Spread(sh, c), g)));
  }

  lemma {:induction false} NewGroupTotal<K(!new)>(q: Query, sh: Shape, c: Context, newKey: Env -> K, k: K, g: Env -> int)
    requires Supported(q, sh)
    ensures Total(Filter(Kept(Rewritten(q, sh), c, map[]), Having(newKey, k)), g)
         == Total(Filter(Kept(WithoutChild(q, sh), c, map[]), Having(Compose(Attach(sh, c), newKey), k)), Compose(Attach(sh, c), g))
  {
    var base, att := Kept(WithoutChild(q, sh), c, map[]), Attach(sh, c);
    EachOnce(q, sh, c);
    FilterMap(base, att, Having(newKey, k));
    FilterCong(base, Compose(att, Having(newKey, k)), Having(Compose(att, newKey), k));
    TotalMap(Filter(base, Having(Compose(att, newKey), k)), att, g);
  }

  function OldPart(sh: Shape, c: Context, column: string, f: Value -> int): Env -> int {
    TotalOf(Spread(sh, c), ChildValue(sh.child, column, f))
  }

  function NewPart(sh: Shape, c: Context, column: string, f: Value -> int): Env -> int
    requires |sh.sums| == |sh.measures| && column in sh.measures
  {
    Compose(Attach(sh, c), ChildValue(sh.derived, SumName(sh.measures, sh.sums, column), f))
  }

  /** What one combination adds to a child SUM, in the original and in the rewritten query. */
  lemma {:induction false} SamePart(sh: Shape, c: Context, e: Env, column: string)
    requires Proper(sh) && column in sh.measures && sh.child !in e && sh.derived !in e
    ensures OldPart(sh, c, column, NumOf)(e) == NewPart(sh, c, column, NumOf)(e)
    ensures OldPart(sh, c, column, IsNum)(e) >= 0 && NewPart(sh, c, column, IsNum)(e) >= 0
    ensures OldPart(sh, c, column, IsNum)(e) == 0 <==> NewPart(sh, c, column, IsNum)(e) == 0
  {
    var kids := Children(sh, c, e);
    SpreadValue(sh, c, e, column, NumOf);
    SpreadValue(sh, c, e, column, IsNum);
    AttachedValue(sh, c, e, column);
    TotalCong(kids, ColumnTotal(column, NumOf), NumTotalOf(column));
    TotalCong(kids, ColumnTotal(column, IsNum), NumCountOf(column));
    NoNumbersNoTotal(kids, column);
    var total := Get(RowOf(Attach(sh, c)(e), sh.derived), SumName(sh.measures, sh.sums, column));
    assert NewPart(sh, c, column, NumOf)(e) == NumOf(total) && NewPart(sh, c, column, IsNum)(e) == IsNum(total);
  }

  lemma {:induction false} SameParts(sh: Shape, c: Context, group: seq<Env>, column: string)
    requires Proper(sh) && column in sh.measures
    requires forall e :: e in group ==> sh.child !in e && sh.derived !in e
    ensures Total(group, OldPart(sh, c, column, NumOf)) == Total(group, NewPart(sh, c, column, NumOf))
    ensures Total(group, OldPart(sh, c, column, IsNum)) == 0 <==> Total(group, NewPart(sh, c, column, IsNum)) == 0
  {
    forall e | e in group
      ensures OldPart(sh, c, column, NumOf)(e) == NewPart(sh, c, column, NumOf)(e)
      ensures OldPart(sh, c, column, IsNum)(e) >= 0 && NewPart(sh, c, column, IsNum)(e) >= 0
      ensures OldPart(sh, c, column, IsNum)(e) == 0 <==> NewPart(sh, c, column, IsNum)(e) == 0
    {
      SamePart(sh, c, e, column);
    }
    TotalCong(group, OldPart(sh, c, column, NumOf), NewPart(sh, c, column, NumOf));
    TotalPositive(group, OldPart(sh, c, column, IsNum));
    TotalPositive(group, NewPart(sh, c, column, IsNum));
  }

  /** Every SUM of a child measure keeps its value in every group, NULL when no row counts. */
  lemma {:induction false} SameChildSums<K(!new)>(q: Query, sh: Shape, c: Context, oldKey: Env -> K, newKey: Env -> K, k: K,
                                            column: string, e: Env)
    requires Supported(q, sh) && KeysAgree(q, sh, c, oldKey, newKey) && column in sh.measures
    ensures Eval(Agg(Sum, Col(sh.child, column)), c, e, Filter(Kept(q, c, map[]), Having(oldKey, k)))
         == Eval(NewExpr(Agg(Sum, Col(sh.child, column)), sh), c, e,
                 Filter(Kept(Rewritten(q, sh), c, map[]), Having(newKey, k)))
  {
    var total := SumName(sh.measures, sh.sums, column);
    var olds, news := Filter(Kept(q, c, map[]), Having(oldKey, k)), Filter(Kept(Rewritten(q, sh), c, map[]), Having(newKey, k));
    SumAsTotals(olds, sh.child, column, c, e);
    SumAsTotals(news, sh.derived, total, c, e);
    assert NewExpr(Agg(Sum, Col(sh.child, column)), sh) == Agg(Sum, Col(sh.derived, total));
    GroupTotal(q, sh, c, oldKey, newKey, k, ChildValue(sh.child, column, IsNum));
    GroupTotal(q, sh, c, oldKey, newKey, k, ChildValue(sh.child, column, NumOf));
    NewGroupTotal(q, sh, c, newKey, k, ChildValue(sh.derived, total, IsNum));
    NewGroupTotal(q, sh, c, newKey, k, ChildValue(sh.derived, total, NumOf));
    var base := Kept(WithoutChild(q, sh), c, map[]);
    var group := Filter(base, Having(Compose(Attach(sh, c), newKey), k));
    EachOnce(q, sh, c);
    FilterIn(base, Having(Compose(Attach(sh, c), newKey), k));
    SameParts(sh, c, group, column);
  }

  lemma {:induction false} AttachedGroup(group: seq<Env>, sh: Shape, c: Context, f: Aggregate, x: Expr, e: Env)
    requires Proper(sh) && ExprFree(x, sh.derived)
    ensures Eval(Agg(f, x), c, e, Map(group, Attach(sh, c))) == Eval(Agg(f, x), c, e, group)
  {
    var att := Attach(sh, c);
    forall i | 0 <= i < |group| ensures ValueOf(x, c)(att(group[i])) == ValueOf(x, c)(group[i]) {
      AttachLater(sh, c, group[i], sh.child, map[]);
      EvalSame(x, c, att(group[i]), group[i], [], [], sh.derived);
    }
    assert Map(Map(group, att), ValueOf(x, c)) == Map(group, ValueOf(x, c));
  }

  /** An aggregate that does not read the child is, per group, the one of the query without the child join. */
  lemma {:induction false} ParentAggregates<K(!new)>(q: Query, sh: Shape, c: Context, newKey: Env -> K, k: K, f: Aggregate,
                                                     x: Expr, e: Env)
    requires Supported(q, sh) && ExprFree(x, sh.child) && ExprFree(x, sh.derived)
    ensures Eval(Agg(f, x), c, e, Filter(Kept(Rewritten(q, sh), c, map[]), Having(newKey, k)))
         == Eval(Agg(f, x), c, e, Filter(Kept(WithoutChild(q, sh), c, map[]), Having(Compose(Attach(sh, c), newKey), k)))
  {
    var base, att := Kept(WithoutChild(q, sh), c, map[]), Attach(sh, c);
    EachOnce(q, sh, c);
    FilterMap(base, att, Having(newKey, k));
    FilterCong(base, Compose(att, Having(newKey, k)), Having(Compose(att, newKey), k));
    AttachedGroup(Filter(base, Having(Compose(att, newKey), k)), sh, c, f, x, e);
  }

  // The GROUP BY of the two queries keys combinations alike.

  lemma {:induction false} ChildKeyColumn(sh: Shape, c: Context, e: Env, x: Env, column: string)
    requires Proper(sh) && IsKey(sh, column) && sh.child !in e && sh.derived !in e && x in Spread(sh, c)(e)
    ensures Get(RowOf(x, sh.child), column) == Get(RowOf(Attach(sh, c)(e), sh.derived), column)
  {
    TotalsOfChildren(sh, c, e);
    if Children(sh, c, e) != [] {
      var kids := Children(sh, c, e);
      var i :| 0 <= i < |kids| && x == e[sh.child := kids[i]];
      FilterIn(SourceRows(Named(sh.table), c, map[]), Joins(sh, e));
      assert kids[i] in kids;
      KeyMatchIsEquality(sh, e, kids[i]);
      var j :| 0 <= j < |sh.keys| && sh.keys[j].0 == column;
      assert KeyOf(sh, kids[i])[j] == KeyOf(sh, Totals(sh, c, e)[0])[j];
    }
  }

  /** An output expression without aggregates has one value on a combination's child rows and on its totals. */
  lemma {:induction false} SameValue(x: Expr, sh: Shape, c: Context, e: Env, f: Env)
    requires Proper(sh) && UsesChildWell(x, sh) && !HasAgg(x)
    requires sh.child !in e && sh.derived !in e && f in Spread(sh, c)(e)
    ensures Eval(x, c, f, []) == Eval(NewExpr(x, sh), c, Attach(sh, c)(e), [])
    decreases x, 1
  {
    match x
    case Lit(_) =>
    case Col(a, n) =>
      SameColumn(a, n, sh, c, e, f);
    case Cmp(_, _, _) => SameBinary(x, sh, c, e, f);
    case InList(y, _) => SameValue(y, sh, c, e, f);
    case IsNull(y) => SameValue(y, sh, c, e, f);
    case Plus(_, _) => SameBinary(x, sh, c, e, f);
    case Cast(_, y) => SameValue(y, sh, c, e, f);
    case Paren(y) => SameValue(y, sh, c, e, f);
    case Not(y) => SameValue(y, sh, c, e, f);
    case And(_, _) => SameBinary(x, sh, c, e, f);
    case Or(_, _) => SameBinary(x, sh, c, e, f);
    case If(t, l, r) => SameValue(t, sh, c, e, f); SameValue(l, sh, c, e, f); SameValue(r, sh, c, e, f);
    case Exists(q) => SameSubquery(q, sh, c, e, f);
    case InQuery(y, q) => SameValue(y, sh, c, e, f); SameSubquery(q, sh, c, e, f);
    case Scalar(q) => SameSubquery(q, sh, c, e, f);
  }

  lemma {:induction false} SameBinary(x: Expr, sh: Shape, c: Context, e: Env, f: Env)
    requires Proper(sh) && UsesChildWell(x, sh) && !HasAgg(x) && (x.Cmp? || x.Plus? || x.And? || x.Or?)
    requires sh.child !in e && sh.derived !in e && f in Spread(sh, c)(e)
    ensures Eval(x, c, f, []) == Eval(NewExpr(x, sh), c, Attach(sh, c)(e), [])
    decreases x, 0
  {
    SameValue(x.l, sh, c, e, f);
    SameValue(x.r, sh, c, e, f);
  }

  lemma SameColumn(a: string, n: string, sh: Shape, c: Context, e: Env, f: Env)
    requires Proper(sh) && UsesChildWell(Col(a, n), sh)
    requires sh.child !in e && sh.derived !in e && f in Spread(sh, c)(e)
    ensures Eval(Col(a, n), c, f, []) == Eval(NewExpr(Col(a, n), sh), c, Attach(sh, c)(e), [])
  {
    if a == sh.child {
      ChildKeyColumn(sh, c, e, f, n);
    } else {
      BothSame(sh, c, e, f);
      SameRow(f, e, sh.child, a);
      SameRow(Attach(sh, c)(e), e, sh.derived, a);
    }
  }

  lemma BothSame(sh: Shape, c: Context, e: Env, f: Env)
    requires Proper(sh) && f in Spread(sh, c)(e)
    ensures Same(f, e, sh.child) && Same(Attach(sh, c)(e), e, sh.derived)
  {
    SpreadSame(sh, c, e, f);
    AttachLater(sh, c, e, sh.child, map[]);
  }

  lemma SameSubquery(q: Query, sh: Shape, c: Context, e: Env, f: Env)
    requires Proper(sh) && FreeOf(q, sh.child) && FreeOf(q, sh.derived) && f in Spread(sh, c)(e)
    ensures Rows(q, c, f) == Rows(q, c, Attach(sh, c)(e))
  {
    BothSame(sh, c, e, f);
    RowsSame(q, c, f, e, sh.child);
    RowsSame(q, c, Attach(sh, c)(e), e, sh.derived);
  }

  lemma {:induction false} SameNamedValue(items: seq<Item>, n: string, sh: Shape, c: Context, e: Env, f: Env)
    requires Proper(sh) && sh.child !in e && sh.derived !in e && f in Spread(sh, c)(e)
    requires forall i :: 0 <= i < |items| ==> UsesChildWell(items[i].e, sh) && (items[i].name == n ==> !HasAgg(items[i].e))
    ensures NamedValue(items, n, c, f) == NamedValue(NewItems(items, sh), n, c, Attach(sh, c)(e))
  {
    if items != [] {
      if items[0].name == n {
        SameValue(items[0].e, sh, c, e, f);
      } else {
        SameNamedValue(items[1..], n, sh, c, e, f);
        assert NewItems(items, sh)[1..] == NewItems(items[1..], sh);
      }
    }
  }

  lemma {:induction false} SameGroupKey(q: Query, sh: Shape, c: Context, e: Env, f: Env)
    requires Supported(q, sh) && q.group.By? && sh.child !in e && sh.derived !in e && f in Spread(sh, c)(e)
    ensures GroupKey(q, c)(f) == GroupKey(Rewritten(q, sh), c)(Attach(sh, c)(e))
  {
    var q', att := Rewritten(q, sh), Attach(sh, c)(e);
    forall i | 0 <= i < |q.group.keys| ensures GroupValue(q, i, c, f) == GroupValue(q', i, c, att) {
      assert GroupsWell(q, q.group.keys[i], sh);
      match q.group.keys[i]
      case ByExpr(x) =>
        BothSame(sh, c, e, f);
        EvalSame(x, c, f, e, [], [], sh.child);
        EvalSame(x, c, att, e, [], [], sh.derived);
      case ByName(n) => SameNamedValue(q.items, n, sh, c, e, f);
    }
  }

  lemma {:induction false} GroupKeysAgree(q: Query, sh: Shape, c: Context)
    requires Supported(q, sh) && q.group.By?
    ensures KeysAgree(q, sh, c, GroupKey(q, c), GroupKey(Rewritten(q, sh), c))
  {
    EachOnce(q, sh, c);
    forall e, x | e in Kept(WithoutChild(q, sh), c, map[]) && x in Spread(sh, c)(e)
      ensures GroupKey(q, c)(x) == GroupKey(Rewritten(q, sh), c)(Attach(sh, c)(e))
    {
      SameGroupKey(q, sh, c, e, x);
    }
  }

  /** A grouped query and its rewritten form have the same groups, with the same child sums. */
  lemma {:induction false} SameGroupedSums(q: Query, sh: Shape, c: Context, k: seq<Value>, column: string, e: Env)
    requires Supported(q, sh) && q.group.By? && column in sh.measures
    ensures var olds, news := Kept(q, c, map[]), Kept(Rewritten(q, sh), c, map[]);
      && (k in Map(olds, GroupKey(q, c)) <==> k in Map(news, GroupKey(Rewritten(q, sh), c)))
      && Eval(Agg(Sum, Col(sh.child, column)), c, e, Filter(olds, Having(GroupKey(q, c), k)))
         == Eval(NewExpr(Agg(Sum, Col(sh.child, column)), sh), c, e, Filter(news, Having(GroupKey(Rewritten(q, sh), c), k)))
  {
    GroupKeysAgree(q, sh, c);
    SameGroups(q, sh, c, GroupKey(q, c), GroupKey(Rewritten(q, sh), c), k);
    SameChildSums(q, sh, c, GroupKey(q, c), GroupKey(Rewritten(q, sh), c), k, column, e);
  }

  /** Grouped by expressions, the groups are those of the query without the child join. */
  lemma {:induction false} BaseGroupKey(q: Query, sh: Shape, c: Context, e: Env)
    requires Supported(q, sh) && q.group.By? && forall i :: 0 <= i < |q.group.keys| ==> q.group.keys[i].ByExpr?
    ensures Compose(Attach(sh, c), GroupKey(Rewritten(q, sh), c))(e) == GroupKey(WithoutChild(q, sh), c)(e)
  {
    var q', base, att := Rewritten(q, sh), WithoutChild(q, sh), Attach(sh, c)(e);
    AttachLater(sh, c, e, sh.child, map[]);
    forall i | 0 <= i < |q.group.keys| ensures GroupValue(q', i, c, att) == GroupValue(base, i, c, e) {
      assert GroupsWell(q, q.group.keys[i], sh);
      EvalSame(q.group.keys[i].e, c, att, e, [], [], sh.derived);
    }
  }

  // The names the rewrite picks.

  /** The aliases of tables and CTEs: a derived table of the FROM list is not among the sources the rewrite collects. */
  function TableAliases(f: From): set<string> {
    match f
    case One(s, a) => if s.Named? then {a} else {}
    case Join(l, _, s, a, _) => TableAliases(l) + if s.Named? then {a} else {}
  }

  /** The totals' names are free of one another; the derived table's name is that of no table of the FROM list. */
  method PickNames(child: string, f: From, measures: seq<string>)
    returns (derived: string, source: string, sums: seq<string>)
    ensures derived !in TableAliases(f) && Names.FirstFree(child + "__grain", TableAliases(f), derived)
    ensures source == child + "__source"
    ensures |sums| == |measures|
    ensures forall i :: 0 <= i < |sums| ==>
              sums[i] !in sums[..i] && Names.FirstFree(measures[i] + "__grain_sum", Names.SetOf(sums[..i]), sums[i])
  {
    derived := Names.FreshAlias(child + "__grain", TableAliases(f));
    source := child + "__source";
    sums := [];
    for i := 0 to |measures|
      invariant |sums| == i
      invariant forall j :: 0 <= j < i ==>
        sums[j] !in sums[..j] && Names.FirstFree(measures[j] + "__grain_sum", Names.SetOf(sums[..j]), sums[j])
    {
      var name := Names.FreshAlias(measures[i] + "__grain_sum", Names.SetOf(sums));
      assert forall j :: 0 <= j < i ==> (sums + [name])[..j] == sums[..j];
      assert (sums + [name])[..i] == sums;
      sums := sums + [name];
    }
  }

  predicate AllDifferent(s: seq<string>) {
    forall i, j :: 0 <= i < j < |s| ==> s[i] != s[j]
  }

  function KeyNames(sh: Shape): (r: seq<string>)
    ensures |r| == |sh.keys| && forall i :: 0 <= i < |r| ==> r[i] == sh.keys[i].0
  {
    seq(|sh.keys|, i requires 0 <= i < |sh.keys| => sh.keys[i].0)
  }

  lemma DifferentTogether(s: seq<string>, t: seq<string>)
    ensures AllDifferent(s + t) <==> AllDifferent(s) && AllDifferent(t) && forall x :: x in s ==> x !in t
  {
    var u := s + t;
    if AllDifferent(u) {
      forall i, j | 0 <= i < |s| && 0 <= j < |t| ensures s[i] != t[j] {
        assert u[i] != u[|s| + j];
      }
      forall i, j | 0 <= i < j < |t| ensures t[i] != t[j] {
        assert u[|s| + i] != u[|s| + j];
      }
      forall i, j | 0 <= i < j < |s| ensures s[i] != s[j] {
        assert u[i] != u[j];
      }
    }
    if AllDifferent(s) && AllDifferent(t) && forall x :: x in s ==> x !in t {
      forall i, j | 0 <= i < j < |u| ensures u[i] != u[j] {
        if i < |s| <= j {
          assert s[i] in s && t[j - |s|] in t;
        } else if |s| <= i {
          assert u[i] == t[i - |s|] && u[j] == t[j - |s|];
        }
      }
    }
  }

  /**
   The derived table's columns are told apart exactly when, besides the totals among
   themselves, no key column is named like a total: the search for names does not look there.
   */
  lemma ColumnsToldApart(sh: Shape)
    requires |sh.sums| == |sh.measures|
    ensures RowKeys.NamesDistinct(PreItems(sh)) <==>
              AllDifferent(KeyNames(sh)) && AllDifferent(sh.sums) && forall k :: k in KeyNames(sh) ==> k !in sh.sums
  {
    var items, names := PreItems(sh), KeyNames(sh) + sh.sums;
    DifferentTogether(KeyNames(sh), sh.sums);
    assert |items| == |names|;
    forall i | 0 <= i < |items| ensures items[i].name == names[i] {
      if i >= |sh.keys| {
        assert items[i] == SumItems(sh)[i - |sh.keys|];
      }
    }
  }
}
