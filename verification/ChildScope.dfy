/**
 Where the child's alias may be named (app/semantics/grain_normalizer.py).  The rewrite takes the
 child's alias out of the FROM list; its check looks for the alias in WHERE, GROUP BY, HAVING,
 ORDER BY and the SELECT list, but not in the joins after the child's.

 Main results: `DanglesExactly`, that the rewritten FROM list still names the alias it no longer
 brings in exactly when a later join names it, which is the condition the theorems of
 GrainNormalizer add; `LaterOnLosesRows`, a query past every check whose rows are all lost;
 and `PickedTwice`, that the rewritten FROM list has one alias twice exactly when a derived table
 has the name picked for the child's.
 */
module ChildScope {
  import opened Seqs
  import opened Sql
  import opened Values
  import opened AliasScope
  import opened GrainNormalizer
  import ColumnTrace
  import Names
  import JoinPolicy

  /** What is checked of the FROM list: the shape of the child's own join. */
  predicate AcceptedFrom(f: From, sh: Shape) {
    f.Join? &&
    if f.alias == sh.child then
      f.kind.LeftOuter? && f.src == Named(sh.table) && JoinsOn(f.on, sh.child, sh.parent, sh.keys)
      && sh.parent in Aliases(f.left)
    else AcceptedFrom(f.left, sh)
  }

  /** No join after the child's names this alias, in its ON or its source. */
  predicate LaterFree(f: From, sh: Shape, a: string) {
    f.Join? && f.alias != sh.child ==> LaterFree(f.left, sh, a) && SourceFree(f.src, a) && ExprFree(f.on, a)
  }

  /** No join before the child's names it, as PostgreSQL requires. */
  predicate EarlierFree(f: From, sh: Shape) {
    f.Join? ==> if f.alias == sh.child then FromFree(f.left, sh.child) else EarlierFree(f.left, sh)
  }

  lemma {:induction false} SupportedExactly(f: From, sh: Shape)
    ensures SupportedFrom(f, sh) <==> AcceptedFrom(f, sh) && LaterFree(f, sh, sh.child) && LaterFree(f, sh, sh.derived)
  {
    if f.Join? && f.alias != sh.child { SupportedExactly(f.left, sh); }
  }

  // The derived child and its join name the child no more.

  lemma {:induction false} AllItemsFree(items: seq<Item>, a: string)
    requires forall i :: 0 <= i < |items| ==> ExprFree(items[i].e, a)
    ensures ItemsFree(items, a)
  {
    if items != [] { AllItemsFree(items[1..], a); }
  }

  lemma {:induction false} AllKeysFree(keys: seq<GroupItem>, a: string)
    requires forall i :: 0 <= i < |keys| ==> KeyFree(keys[i], a)
    ensures KeysFree(keys, a)
  {
    if keys != [] { AllKeysFree(keys[1..], a); }
  }

  lemma PreAggregatedFree(sh: Shape)
    requires Proper(sh) && sh.source != sh.child
    ensures FreeOf(PreAggregated(sh), sh.child)
  {
    forall i | 0 <= i < |PreItems(sh)| ensures ExprFree(PreItems(sh)[i].e, sh.child) {
      if i < |sh.keys| {
        assert PreItems(sh)[i] == KeyItems(sh)[i];
      } else {
        assert PreItems(sh)[i] == SumItems(sh)[i - |sh.keys|];
      }
    }
    AllItemsFree(PreItems(sh), sh.child);
    AllKeysFree(PreKeys(sh), sh.child);
  }

  lemma {:induction false} RenamedFree(on: Expr, sh: Shape)
    requires Proper(sh) && forall t :: t in Terms(on) ==> TermPair(t, sh.child, sh.parent).Some?
    ensures ExprFree(Renamed(on, sh.child, sh.derived), sh.child)
  {
    if on.And? {
      RenamedFree(on.l, sh);
      RenamedFree(on.r, sh);
    } else {
      assert on in Terms(on);
    }
  }

  lemma {:induction false} NewAliases(f: From, sh: Shape)
    requires Proper(sh) && DistinctAliases(f) && AcceptedFrom(f, sh)
    ensures sh.child !in Aliases(NewFrom(f, sh))
  {
    if f.alias != sh.child { NewAliases(f.left, sh); }
  }

  /** The rewritten FROM list names the child, which it no longer brings in, exactly when a later join of the original does. */
  lemma {:induction false} DanglesExactly(f: From, sh: Shape)
    requires Proper(sh) && sh.source != sh.child && DistinctAliases(f) && AcceptedFrom(f, sh) && EarlierFree(f, sh)
    ensures sh.child !in Aliases(NewFrom(f, sh))
    ensures FromFree(NewFrom(f, sh), sh.child) <==> LaterFree(f, sh, sh.child)
  {
    NewAliases(f, sh);
    if f.alias == sh.child {
      PreAggregatedFree(sh);
      RenamedFree(f.on, sh);
    } else {
      DanglesExactly(f.left, sh);
    }
  }

  // The name picked for the derived child is free of tables' aliases, not of derived tables'.

  function DerivedAliases(f: From): set<string> {
    match f
    case One(s, a) => if s.Named? then {} else {a}
    case Join(l, _, s, a, _) => DerivedAliases(l) + if s.Named? then {} else {a}
  }

  /** A derived table of the FROM list has the name the search over the tables' aliases ends at. */
  predicate Collides(f: From, child: string) {
    exists a :: a in DerivedAliases(f) && Names.FirstFree(child + "__grain", TableAliases(f), a)
  }

  lemma {:induction false} AliasesSplit(f: From)
    ensures Aliases(f) == TableAliases(f) + DerivedAliases(f)
  {
    if f.Join? { AliasesSplit(f.left); }
  }

  lemma {:induction false} NewAliasesDistinct(f: From, sh: Shape)
    requires Proper(sh) && DistinctAliases(f) && AcceptedFrom(f, sh)
    ensures Aliases(NewFrom(f, sh)) == (Aliases(f) - {sh.child}) + {sh.derived}
    ensures DistinctAliases(NewFrom(f, sh)) <==> sh.derived !in Aliases(f)
  {
    if f.alias != sh.child { NewAliasesDistinct(f.left, sh); }
  }

  /** The rewritten FROM list brings one alias in twice, which PostgreSQL refuses, exactly when the name collides. */
  lemma PickedTwice(f: From, sh: Shape)
    requires Proper(sh) && DistinctAliases(f) && AcceptedFrom(f, sh)
    requires sh.derived !in TableAliases(f) && Names.FirstFree(sh.child + "__grain", TableAliases(f), sh.derived)
    ensures DistinctAliases(NewFrom(f, sh)) <==> !Collides(f, sh.child)
  {
    AliasesSplit(f);
    NewAliasesDistinct(f, sh);
    forall a | a in DerivedAliases(f) && Names.FirstFree(sh.child + "__grain", TableAliases(f), a) ensures a == sh.derived {
      Names.FirstFreeOnly(sh.child + "__grain", TableAliases(f), a, sh.derived);
    }
  }

  /** FROM p LEFT JOIN child ON child.key = p.key CROSS JOIN (...) AS child__grain */
  function GrainNamed(sh: Shape, parentTable: string, q: Query): From
    requires |sh.keys| == 1
  {
    From.Join(ChildJoin(sh, parentTable), Cross, Derived(q), sh.child + "__grain", TRUE)
  }

  /** A query past every check whose rewritten form has two derived tables of one name. */
  lemma DerivedNameTaken(sh: Shape, parentTable: string, q: Query)
    requires Proper(sh) && |sh.keys| == 1 && sh.derived == sh.child + "__grain"
    ensures var f := GrainNamed(sh, parentTable, q);
      && AcceptedFrom(f, sh) && DistinctAliases(f) && Names.FirstFree(sh.child + "__grain", TableAliases(f), sh.derived)
      && Collides(f, sh.child) && !DistinctAliases(NewFrom(f, sh))
  {
    var f := GrainNamed(sh, parentTable, q);
    ChildJoinAccepted(sh, parentTable);
    assert |sh.child| < |sh.derived|;
    assert TableAliases(f.left.left) == {sh.parent};
    assert TableAliases(f.left) == {sh.parent, sh.child} == TableAliases(f);
    assert sh.derived in DerivedAliases(f) && AcceptedFrom(f, sh);
    PickedTwice(f, sh);
  }

  // A query past every check whose rewritten form loses its rows.

  function ChildJoin(sh: Shape, parentTable: string): From
    requires |sh.keys| == 1
  {
    From.Join(One(Named(parentTable), sh.parent), LeftOuter, Named(sh.table), sh.child,
              Cmp(Eq, Col(sh.child, sh.keys[0].0), Col(sh.parent, sh.keys[0].1)))
  }

  /** FROM p LEFT JOIN child ON child.key = p.key JOIN x ON x.key = p.column AND child.measure > 0 */
  function LaterOn(sh: Shape, parentTable: string, x: string, xTable: string, key: string, column: string): From
    requires |sh.keys| == 1 && |sh.measures| == 1
  {
    From.Join(ChildJoin(sh, parentTable), Inner, Named(xTable), x, LaterCondition(sh, x, key, column))
  }

  function LaterCondition(sh: Shape, x: string, key: string, column: string): Expr
    requires |sh.measures| == 1
  {
    And(Cmp(Eq, Col(x, key), Col(sh.parent, column)), Cmp(Gt, Col(sh.child, sh.measures[0]), Lit(Num(0))))
  }

  predicate LaterNames(sh: Shape, x: string) {
    Proper(sh) && |sh.keys| == 1 && |sh.measures| == 1 && sh.source != sh.child && x !in {sh.parent, sh.child, sh.derived}
  }

  lemma ChildJoinAccepted(sh: Shape, parentTable: string)
    requires Proper(sh) && |sh.keys| == 1
    ensures AcceptedFrom(ChildJoin(sh, parentTable), sh) && DistinctAliases(ChildJoin(sh, parentTable))
  {
    var f := ChildJoin(sh, parentTable);
    assert Terms(f.on) == [f.on] && TermPair(f.on, sh.child, sh.parent) == Some(sh.keys[0]);
    assert sh.keys == [sh.keys[0]];
    assert f.on in Terms(f.on);
  }

  lemma LaterOnAccepted(sh: Shape, parentTable: string, x: string, xTable: string, key: string, column: string)
    requires LaterNames(sh, x)
    ensures var f := LaterOn(sh, parentTable, x, xTable, key, column);
      AcceptedFrom(f, sh) && EarlierFree(f, sh) && DistinctAliases(f) && !LaterFree(f, sh, sh.child)
  {
    var f := LaterOn(sh, parentTable, x, xTable, key, column);
    ChildJoinAccepted(sh, parentTable);
    assert FromFree(f.left.left, sh.child) && EarlierFree(f.left, sh) && f.alias != sh.child;
    assert !ExprFree(f.on.r.l, sh.child) && !ExprFree(f.on.r, sh.child);
  }

  lemma NewLaterOn(sh: Shape, parentTable: string, x: string, xTable: string, key: string, column: string)
    requires LaterNames(sh, x)
    ensures var f := LaterOn(sh, parentTable, x, xTable, key, column);
      && DistinctAliases(NewFrom(f, sh)) && sh.child !in Aliases(NewFrom(f, sh))
      && NewFrom(f, sh).Join? && NewFrom(f, sh).kind.Inner? && NewFrom(f, sh).on == f.on
  {
    var f := LaterOn(sh, parentTable, x, xTable, key, column);
    assert NewFrom(f.left, sh).left == f.left.left && NewFrom(f.left, sh).alias == sh.derived;
    assert Aliases(NewFrom(f.left, sh)) == {sh.parent, sh.derived};
  }

  lemma UnboundFalse(x: Expr, op: Comparison, a: string, n: string, v: Value, c: Context, e: Env)
    requires a !in e
    ensures !IsTrue(Eval(And(x, Cmp(op, Col(a, n), Lit(v))), c, e, []))
  {
    assert Eval(Col(a, n), c, e, []) == Null;
    assert Eval(Cmp(op, Col(a, n), Lit(v)), c, e, []) == Null;
  }

  /** An alias nobody brings in reads as NULL, so a comparison with it is true of nothing. */
  lemma UnboundOnEmpty(f: From, x: Expr, op: Comparison, a: string, n: string, v: Value, c: Context, base: Env)
    requires f.Join? && f.kind.Inner? && DistinctAliases(f) && a !in Aliases(f) && a !in base
    requires f.on == And(x, Cmp(op, Col(a, n), Lit(v)))
    ensures FromRows(f, c, base) == []
  {
    var froms := FromRows(f, c, base);
    if froms != [] {
      var l := froms[0];
      assert l in froms;
      var e := JoinPolicy.JoinedFrom(f, c, base, l);
      ColumnTrace.EachRow(f, c, base, l);
      UnboundFalse(x, op, a, n, v, c, base + l);
    }
  }

  lemma ChildRow(sh: Shape, parentTable: string, c: Context, base: Env, p: Row, r: Row) returns (e: Env)
    requires sh.parent != sh.child && |sh.keys| == 1 && c.ctes == map[] && {parentTable, sh.table} <= c.tables.Keys
    requires p in c.tables[parentTable] && r in c.tables[sh.table] && Get(r, sh.keys[0].0) == Get(p, sh.keys[0].1) != Null
    ensures e == map[sh.parent := p][sh.child := r] && e in FromRows(ChildJoin(sh, parentTable), c, base)
  {
    e := map[sh.parent := p][sh.child := r];
    EqualTrue(sh.child, sh.keys[0].0, sh.parent, sh.keys[0].1, c, base + e);
    JoinIn(ChildJoin(sh, parentTable), c, base, map[sh.parent := p], r);
  }

  /** On these rows of the three tables the original query has a combination. */
  lemma LaterOnRow(sh: Shape, f: From, x: string, xTable: string, key: string, column: string, c: Context, base: Env,
                   e: Env, p: Row, r: Row, s: Row)
    requires LaterNames(sh, x) && e == map[sh.parent := p][sh.child := r]
    requires f.Join? && f.kind.Inner? && f.src == Named(xTable) && f.alias == x && f.on == LaterCondition(sh, x, key, column)
    requires e in FromRows(f.left, c, base) && s in SourceRows(f.src, c, base)
    requires Get(s, key) == Get(p, column) != Null
    requires Get(r, sh.measures[0]).Num? && Get(r, sh.measures[0]).n > 0
    ensures e[x := s] in FromRows(f, c, base)
  {
    LaterTrue(sh, x, key, column, c, base + e[x := s]);
    JoinIn(f, c, base, e, s);
  }

  lemma EqualTrue(a: string, n: string, b: string, m: string, c: Context, e: Env)
    requires Get(RowOf(e, a), n) == Get(RowOf(e, b), m) != Null
    ensures IsTrue(Eval(Cmp(Eq, Col(a, n), Col(b, m)), c, e, []))
  {
    assert Eval(Col(a, n), c, e, []) == Get(RowOf(e, a), n) && Eval(Col(b, m), c, e, []) == Get(RowOf(e, b), m);
  }

  lemma AboveTrue(a: string, n: string, c: Context, e: Env)
    requires Get(RowOf(e, a), n).Num? && Get(RowOf(e, a), n).n > 0
    ensures IsTrue(Eval(Cmp(Gt, Col(a, n), Lit(Num(0))), c, e, []))
  {
    assert Eval(Col(a, n), c, e, []) == Get(RowOf(e, a), n) && Eval(Lit(Num(0)), c, e, []) == Num(0);
  }

  lemma LaterTrue(sh: Shape, x: string, key: string, column: string, c: Context, e: Env)
    requires |sh.measures| == 1 && Get(RowOf(e, x), key) == Get(RowOf(e, sh.parent), column) != Null
    requires Get(RowOf(e, sh.child), sh.measures[0]).Num? && Get(RowOf(e, sh.child), sh.measures[0]).n > 0
    ensures IsTrue(Eval(LaterCondition(sh, x, key, column), c, e, []))
  {
    EqualTrue(x, key, sh.parent, column, c, e);
    AboveTrue(sh.child, sh.measures[0], c, e);
  }

  lemma JoinIn(f: From, c: Context, base: Env, e: Env, r: Row)
    requires f.Join? && (f.kind.Inner? || f.kind.LeftOuter?) && e in FromRows(f.left, c, base)
    requires r in SourceRows(f.src, c, base) && HoldsAbove(f.on, c, base)(e[f.alias := r])
    ensures e[f.alias := r] in FromRows(f, c, base)
  {
    var lefts, rows, ok := FromRows(f.left, c, base), SourceRows(f.src, c, base), HoldsAbove(f.on, c, base);
    MatchIn(e, f.alias, rows, ok, r);
    StepsIn(lefts, f.alias, rows, ok, e, e[f.alias := r]);
  }

  lemma MatchIn(e: Env, alias: string, rows: seq<Row>, ok: Env -> bool, r: Row)
    requires r in rows && ok(e[alias := r])
    ensures e[alias := r] in Matches(e, alias, rows, ok)
  {
    var i :| 0 <= i < |rows| && rows[i] == r;
    assert Map(rows, Extend(e, alias))[i] == e[alias := r];
    FilterIn(Map(rows, Extend(e, alias)), ok);
  }

  lemma StepsIn(lefts: seq<Env>, alias: string, rows: seq<Row>, ok: Env -> bool, e: Env, l: Env)
    requires e in lefts && l in Matches(e, alias, rows, ok)
    ensures l in JoinRows(Inner, lefts, alias, rows, ok) && l in JoinRows(LeftOuter, lefts, alias, rows, ok)
  {
    assert l in InnerStep(alias, rows, ok)(e) && l in OuterStep(alias, rows, ok)(e);
    FlatMapIn(lefts, InnerStep(alias, rows, ok), l);
    FlatMapIn(lefts, OuterStep(alias, rows, ok), l);
  }

  /**
   A later inner join whose ON asks something of the child passes the checks, and the rewritten
   query then has no rows at all, though the original has.
   */
  lemma LaterOnLosesRows(sh: Shape, parentTable: string, x: string, xTable: string, key: string, column: string,
                         c: Context, base: Env, p: Row, r: Row, s: Row)
    requires LaterNames(sh, x) && sh.child !in base && c.ctes == map[] && {parentTable, sh.table, xTable} <= c.tables.Keys
    requires p in c.tables[parentTable] && r in c.tables[sh.table] && s in c.tables[xTable]
    requires Get(r, sh.keys[0].0) == Get(p, sh.keys[0].1) != Null && Get(s, key) == Get(p, column) != Null
    requires Get(r, sh.measures[0]).Num? && Get(r, sh.measures[0]).n > 0
    ensures var f := LaterOn(sh, parentTable, x, xTable, key, column);
      && AcceptedFrom(f, sh) && !LaterFree(f, sh, sh.child)
      && FromRows(f, c, base) != [] && FromRows(NewFrom(f, sh), c, base) == []
  {
    LaterOnAccepted(sh, parentTable, x, xTable, key, column);
    NewLaterOn(sh, parentTable, x, xTable, key, column);
    var f := LaterOn(sh, parentTable, x, xTable, key, column);
    UnboundOnEmpty(NewFrom(f, sh), f.on.l, Gt, sh.child, sh.measures[0], Num(0), c, base);
    var e := ChildRow(sh, parentTable, c, base, p, r);
    LaterOnRow(sh, f, x, xTable, key, column, c, base, e, p, r, s);
    assert e[x := s] in FromRows(f, c, base);
  }
}
