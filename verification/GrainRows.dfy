/**
 The rows child pre-aggregation returns (app/semantics/grain_normalizer.py).

 Main results: `RewrittenRows`.  The rewritten query has one row per group of the original in which
 HAVING holds, asked of the query without the child join, cut by DISTINCT and LIMIT as the original
 is; and in each output expression an aggregate has its promised value: a SUM of a child measure,
 what the original query totals for that group; one that does not read the child, what the query
 without the child join has (`ParentSide`), which is the fan-out put right; and one over the
 child's key columns, each of whose values is taken once per combination of the other rows where the
 original takes it once per child row.  `CountAgrees` and `SumAgrees` say exactly when the last
 keeps its value, and `ItemsCounted` what becomes of a count of child rows written that way.
 */
module GrainRows {
  import opened Seqs
  import opened Sql
  import opened Values
  import opened AliasScope
  import opened GrainNormalizer
  import RowKeys

  function Alike(): Env -> seq<Value> { (e: Env) => [] }

  /** The key of a combination; without GROUP BY all have one. */
  function Keying(q: Query, c: Context): Env -> seq<Value>
    requires q.Select?
  {
    if q.group.By? then GroupKey(q, c) else Alike()
  }

  function GroupOf(q: Query, c: Context, k: seq<Value>): seq<Env>
    requires q.Select?
  {
    Filter(Kept(q, c, map[]), Having(Keying(q, c), k))
  }

  // What the original says of each group, and the query without the child join.

  /** The original's key of a combination of the other rows: its child rows all have one. */
  function BaseKey(q: Query, sh: Shape, c: Context): Env -> seq<Value>
    requires q.Select?
  {
    (e: Env) => Keying(q, c)(Spread(sh, c)(e)[0])
  }

  /** The combinations of the other rows in the group of key `k`. */
  function BaseGroup(q: Query, sh: Shape, c: Context, k: seq<Value>): seq<Env>
    requires q.Select?
  {
    Filter(Kept(WithoutChild(q, sh), c, map[]), Having(BaseKey(q, sh, c), k))
  }

  /** The groups, in the order the query without the child join meets them; without GROUP BY there is one. */
  function KeysInOrder(q: Query, sh: Shape, c: Context): seq<seq<Value>>
    requires q.Select?
  {
    if q.group.Whole? then [[]] else Distinct(Map(Kept(WithoutChild(q, sh), c, map[]), BaseKey(q, sh, c)))
  }

  /** HAVING, asked of the group in the query without the child join. */
  function Shows(q: Query, sh: Shape, c: Context): seq<Value> -> bool
    requires q.Select?
  {
    (k: seq<Value>) => IsTrue(Eval(q.having, c, Representative(BaseGroup(q, sh, c, k), map[]), BaseGroup(q, sh, c, k)))
  }

  /** An expression's value on a combination's child rows: the same on each of them, and on the NULL-padded row if there is none. */
  function OnChild(x: Expr, sh: Shape, c: Context): Env -> Value {
    (e: Env) => Eval(x, c, Spread(sh, c)(e)[0], [])
  }

  /** An aggregate over the other rows' combinations of a group, each counted once. */
  function OnceEach(q: Query, sh: Shape, c: Context, k: seq<Value>, f: Aggregate, y: Expr): Value
    requires q.Select?
  {
    Aggregated(f, Map(BaseGroup(q, sh, c, k), OnChild(y, sh, c)))
  }

  /** An aggregate's value for the group of key `k`: from the original query, or once per combination of the other rows. */
  function Promised(q: Query, sh: Shape, c: Context, k: seq<Value>, f: Aggregate, y: Expr): Value
    requires q.Select?
  {
    if IsMeasureSum(sh, Agg(f, y)) then Eval(Agg(f, y), c, map[], GroupOf(q, c, k))
    else OnceEach(q, sh, c, k, f, y)
  }

  /** The output expression with its aggregates' promised values filled in. */
  function Filled(x: Expr, q: Query, sh: Shape, c: Context, k: seq<Value>): Expr
    requires q.Select?
    decreases x
  {
    match x
    case Lit(_) => x
    case Col(_, _) => x
    case Cmp(op, l, r) => Cmp(op, Filled(l, q, sh, c, k), Filled(r, q, sh, c, k))
    case InList(y, vs) => InList(Filled(y, q, sh, c, k), vs)
    case IsNull(y) => IsNull(Filled(y, q, sh, c, k))
    case Plus(l, r) => Plus(Filled(l, q, sh, c, k), Filled(r, q, sh, c, k))
    case Cast(kind, y) => Cast(kind, Filled(y, q, sh, c, k))
    case Paren(y) => Paren(Filled(y, q, sh, c, k))
    case Not(y) => Not(Filled(y, q, sh, c, k))
    case And(l, r) => And(Filled(l, q, sh, c, k), Filled(r, q, sh, c, k))
    case Or(l, r) => Or(Filled(l, q, sh, c, k), Filled(r, q, sh, c, k))
    case If(t, l, r) => If(Filled(t, q, sh, c, k), Filled(l, q, sh, c, k), Filled(r, q, sh, c, k))
    case Agg(f, y) => Lit(Promised(q, sh, c, k, f, y))
    case Exists(_) => x
    case InQuery(y, p) => InQuery(Filled(y, q, sh, c, k), p)
    case Scalar(_) => x
  }

  /** The first of the original's combinations in the group, for what an output expression reads beside its aggregates. */
  function FirstOf(q: Query, sh: Shape, c: Context, k: seq<Value>): Env
    requires q.Select?
  {
    var group := BaseGroup(q, sh, c, k);
    if group == [] then map[] else Spread(sh, c)(group[0])[0]
  }

  function PromisedRow(items: seq<Item>, q: Query, sh: Shape, c: Context, k: seq<Value>): Row
    requires q.Select?
  {
    if items == [] then map[]
    else PromisedRow(items[1..], q, sh, c, k)[
           items[0].name := Eval(Filled(items[0].e, q, sh, c, k), c, FirstOf(q, sh, c, k), [])]
  }

  function RowFor(q: Query, sh: Shape, c: Context): seq<Value> -> Row
    requires q.Select?
  {
    (k: seq<Value>) => PromisedRow(q.items, q, sh, c, k)
  }

  /** PostgreSQL refuses an aggregate inside an aggregate. */
  predicate Flat(x: Expr) {
    match x
    case Lit(_) => true
    case Col(_, _) => true
    case Cmp(_, l, r) => Flat(l) && Flat(r)
    case InList(y, _) => Flat(y)
    case IsNull(y) => Flat(y)
    case Plus(l, r) => Flat(l) && Flat(r)
    case Cast(_, y) => Flat(y)
    case Paren(y) => Flat(y)
    case Not(y) => Flat(y)
    case And(l, r) => Flat(l) && Flat(r)
    case Or(l, r) => Flat(l) && Flat(r)
    case If(t, l, r) => Flat(t) && Flat(l) && Flat(r)
    case Agg(_, y) => !HasAgg(y)
    case Exists(_) => true
    case InQuery(y, _) => Flat(y)
    case Scalar(_) => true
  }

  predicate AllFlat(items: seq<Item>) {
    forall i :: 0 <= i < |items| ==> Flat(items[i].e)
  }

  // The groups of the two queries and of the one without the child join.

  lemma KeyingAgrees(q: Query, sh: Shape, c: Context)
    requires Supported(q, sh)
    ensures KeysAgree(q, sh, c, Keying(q, c), Keying(Rewritten(q, sh), c))
  {
    if q.group.By? { GroupKeysAgree(q, sh, c); }
  }

  lemma BaseKeyIs(q: Query, sh: Shape, c: Context, e: Env)
    requires Supported(q, sh) && e in Kept(WithoutChild(q, sh), c, map[])
    ensures BaseKey(q, sh, c)(e) == Keying(Rewritten(q, sh), c)(Attach(sh, c)(e))
  {
    KeyingAgrees(q, sh, c);
    SpreadHasOne(sh, c, e);
    assert Spread(sh, c)(e)[0] in Spread(sh, c)(e);
  }

  lemma {:induction false} BaseGroupIs(q: Query, sh: Shape, c: Context, k: seq<Value>)
    requires Supported(q, sh)
    ensures BaseGroup(q, sh, c, k)
         == Filter(Kept(WithoutChild(q, sh), c, map[]), Having(Compose(Attach(sh, c), Keying(Rewritten(q, sh), c)), k))
    ensures forall e :: e in BaseGroup(q, sh, c, k) ==> sh.child !in e && sh.derived !in e
  {
    var base, newKey := Kept(WithoutChild(q, sh), c, map[]), Compose(Attach(sh, c), Keying(Rewritten(q, sh), c));
    forall f | f in base ensures Having(newKey, k)(f) == Having(BaseKey(q, sh, c), k)(f) {
      BaseKeyIs(q, sh, c, f);
    }
    FilterCong(base, Having(newKey, k), Having(BaseKey(q, sh, c), k));
    EachOnce(q, sh, c);
    FilterIn(base, Having(BaseKey(q, sh, c), k));
  }

  /** The rewritten query's group holds each combination of the other rows once. */
  lemma {:induction false} NewGroup(q: Query, sh: Shape, c: Context, k: seq<Value>)
    requires Supported(q, sh)
    ensures GroupOf(Rewritten(q, sh), c, k) == Map(BaseGroup(q, sh, c, k), Attach(sh, c))
  {
    var base, att, newKey := Kept(WithoutChild(q, sh), c, map[]), Attach(sh, c), Keying(Rewritten(q, sh), c);
    EachOnce(q, sh, c);
    BaseGroupIs(q, sh, c, k);
    FilterMap(base, att, Having(newKey, k));
    FilterCong(base, Compose(att, Having(newKey, k)), Having(Compose(att, newKey), k));
  }

  lemma {:induction false} OldGroupTotal(q: Query, sh: Shape, c: Context, k: seq<Value>, g: Env -> int)
    requires Supported(q, sh)
    ensures Total(GroupOf(q, c, k), g) == Total(BaseGroup(q, sh, c, k), TotalOf(Spread(sh, c), g))
  {
    KeyingAgrees(q, sh, c);
    GroupTotal(q, sh, c, Keying(q, c), Keying(Rewritten(q, sh), c), k, g);
    BaseGroupIs(q, sh, c, k);
  }

  /** By expressions, the groups are those the query without the child join makes itself. */
  lemma {:induction false} OwnGroup(q: Query, sh: Shape, c: Context, k: seq<Value>)
    requires Supported(q, sh) && (q.group.By? ==> forall i :: 0 <= i < |q.group.keys| ==> q.group.keys[i].ByExpr?)
    ensures BaseGroup(q, sh, c, k) == GroupOf(WithoutChild(q, sh), c, k)
  {
    var base, baseKey := Kept(WithoutChild(q, sh), c, map[]), Keying(WithoutChild(q, sh), c);
    forall f | f in base ensures Having(BaseKey(q, sh, c), k)(f) == Having(baseKey, k)(f) {
      BaseKeyIs(q, sh, c, f);
      if q.group.By? { BaseGroupKey(q, sh, c, f); }
    }
    FilterCong(base, Having(BaseKey(q, sh, c), k), Having(baseKey, k));
  }

  /** The keys are those of the original's groups, no key twice. */
  lemma SameKeys(q: Query, sh: Shape, c: Context, k: seq<Value>)
    requires Supported(q, sh)
    ensures q.group.By? ==> (k in KeysInOrder(q, sh, c) <==> k in Map(Kept(q, c, map[]), GroupKey(q, c)))
    ensures forall i, j :: 0 <= i < j < |KeysInOrder(q, sh, c)| ==> KeysInOrder(q, sh, c)[i] != KeysInOrder(q, sh, c)[j]
  {
    if q.group.By? {
      GroupKeysAgree(q, sh, c);
      SameGroups(q, sh, c, GroupKey(q, c), GroupKey(Rewritten(q, sh), c), k);
      NewKeys(q, sh, c);
    }
  }

  lemma {:induction false} NewKeys(q: Query, sh: Shape, c: Context)
    requires Supported(q, sh)
    ensures Map(Kept(Rewritten(q, sh), c, map[]), Keying(Rewritten(q, sh), c))
         == Map(Kept(WithoutChild(q, sh), c, map[]), BaseKey(q, sh, c))
  {
    var base, att, newKey := Kept(WithoutChild(q, sh), c, map[]), Attach(sh, c), Keying(Rewritten(q, sh), c);
    EachOnce(q, sh, c);
    MapMap(base, att, newKey);
    forall f | f in base ensures Compose(att, newKey)(f) == BaseKey(q, sh, c)(f) {
      BaseKeyIs(q, sh, c, f);
    }
    MapCong(base, Compose(att, newKey), BaseKey(q, sh, c));
  }

  // The aggregates.

  lemma ChildSumValue(q: Query, sh: Shape, c: Context, k: seq<Value>, column: string, e: Env)
    requires Supported(q, sh) && column in sh.measures
    ensures Eval(NewExpr(Agg(Sum, Col(sh.child, column)), sh), c, e, GroupOf(Rewritten(q, sh), c, k))
         == Promised(q, sh, c, k, Sum, Col(sh.child, column))
  {
    KeyingAgrees(q, sh, c);
    SameChildSums(q, sh, c, Keying(q, c), Keying(Rewritten(q, sh), c), k, column, e);
    SumAnywhere(Col(sh.child, column), c, e, GroupOf(q, c, k));
  }

  lemma SumAnywhere(x: Expr, c: Context, e: Env, group: seq<Env>)
    ensures Eval(Agg(Sum, x), c, e, group) == Eval(Agg(Sum, x), c, map[], group)
  {
    AggMeaning(Sum, x, c, e, group);
    AggMeaning(Sum, x, c, map[], group);
  }

  lemma {:induction false} OnChildValues(q: Query, sh: Shape, c: Context, k: seq<Value>, y: Expr)
    requires Supported(q, sh) && UsesChildWell(y, sh) && !HasAgg(y)
    ensures Map(GroupOf(Rewritten(q, sh), c, k), ValueOf(NewExpr(y, sh), c)) == Map(BaseGroup(q, sh, c, k), OnChild(y, sh, c))
  {
    var group, att, value := BaseGroup(q, sh, c, k), Attach(sh, c), ValueOf(NewExpr(y, sh), c);
    NewGroup(q, sh, c, k);
    BaseGroupIs(q, sh, c, k);
    MapMap(group, att, value);
    forall b | b in group ensures Compose(att, value)(b) == OnChild(y, sh, c)(b) {
      OnAttached(y, sh, c, b);
    }
    MapCong(group, Compose(att, value), OnChild(y, sh, c));
  }

  lemma OnAttached(y: Expr, sh: Shape, c: Context, b: Env)
    requires Proper(sh) && UsesChildWell(y, sh) && !HasAgg(y) && sh.child !in b && sh.derived !in b
    ensures ValueOf(NewExpr(y, sh), c)(Attach(sh, c)(b)) == OnChild(y, sh, c)(b)
    ensures forall f :: f in Spread(sh, c)(b) ==> ValueOf(y, c)(f) == OnChild(y, sh, c)(b)
  {
    SpreadHasOne(sh, c, b);
    assert Spread(sh, c)(b)[0] in Spread(sh, c)(b);
    forall f | f in Spread(sh, c)(b) ensures Eval(y, c, f, []) == Eval(NewExpr(y, sh), c, Attach(sh, c)(b), []) {
      SameValue(y, sh, c, b, f);
    }
  }

  lemma OverKeysValue(q: Query, sh: Shape, c: Context, k: seq<Value>, f: Aggregate, y: Expr, e: Env)
    requires Supported(q, sh) && UsesChildWell(y, sh) && !HasAgg(y) && !IsMeasureSum(sh, Agg(f, y))
    ensures Eval(NewExpr(Agg(f, y), sh), c, e, GroupOf(Rewritten(q, sh), c, k)) == Promised(q, sh, c, k, f, y)
  {
    OnChildValues(q, sh, c, k, y);
    AggMeaning(f, NewExpr(y, sh), c, e, GroupOf(Rewritten(q, sh), c, k));
    AggStays(f, y, sh);
  }

  /** An aggregate that does not read the child is promised its value in the query without the child join. */
  lemma {:induction false} ParentSide(q: Query, sh: Shape, c: Context, k: seq<Value>, f: Aggregate, y: Expr)
    requires Supported(q, sh) && ExprFree(y, sh.child) && ExprFree(y, sh.derived)
    ensures Promised(q, sh, c, k, f, y) == Eval(Agg(f, y), c, map[], BaseGroup(q, sh, c, k))
  {
    var group := BaseGroup(q, sh, c, k);
    BaseGroupIs(q, sh, c, k);
    AggMeaning(f, y, c, map[], group);
    forall b | b in group ensures OnChild(y, sh, c)(b) == ValueOf(y, c)(b) {
      FreeOnChild(y, sh, c, b);
    }
    MapCong(group, OnChild(y, sh, c), ValueOf(y, c));
    assert !IsMeasureSum(sh, Agg(f, y));
  }

  lemma FreeOnChild(y: Expr, sh: Shape, c: Context, b: Env)
    requires Proper(sh) && ExprFree(y, sh.child)
    ensures OnChild(y, sh, c)(b) == ValueOf(y, c)(b)
  {
    SpreadFirst(sh, c, b);
    BothSame(sh, c, b, Spread(sh, c)(b)[0]);
    EvalSame(y, c, Spread(sh, c)(b)[0], b, [], [], sh.child);
  }

  lemma AggStays(f: Aggregate, y: Expr, sh: Shape)
    requires |sh.sums| == |sh.measures| && !IsMeasureSum(sh, Agg(f, y))
    ensures NewExpr(Agg(f, y), sh) == Agg(f, NewExpr(y, sh))
  {
  }

  lemma AggMeaning(f: Aggregate, x: Expr, c: Context, e: Env, group: seq<Env>)
    ensures Eval(Agg(f, x), c, e, group) == Aggregated(f, Map(group, ValueOf(x, c)))
  {
  }

  // The output expressions.

  /** On a group's row, the rewritten output expression is the original with its aggregates' promised values. */
  predicate FillsIn(x: Expr, q: Query, sh: Shape, c: Context, k: seq<Value>)
    requires q.Select? && |sh.sums| == |sh.measures|
  {
    Eval(NewExpr(x, sh), c, Representative(GroupOf(Rewritten(q, sh), c, k), map[]), GroupOf(Rewritten(q, sh), c, k))
      == Eval(Filled(x, q, sh, c, k), c, FirstOf(q, sh, c, k), [])
  }

  lemma {:induction false} FilledValue(x: Expr, q: Query, sh: Shape, c: Context, k: seq<Value>)
    requires Supported(q, sh) && UsesChildWell(x, sh) && Flat(x)
    ensures FillsIn(x, q, sh, c, k)
    decreases x, 1
  {
    if x.Lit? || x.Col? || x.Exists? || x.Scalar? {
      FilledLeaf(x, q, sh, c, k);
    } else if x.Cmp? || x.Plus? || x.And? || x.Or? {
      FilledBinary(x, q, sh, c, k);
    } else if x.If? {
      FilledIf(x, q, sh, c, k);
    } else if x.Agg? {
      FilledAggregate(x.f, x.e, q, sh, c, k);
    } else if x.InQuery? {
      FilledInQuery(x, q, sh, c, k);
    } else {
      FilledUnary(x, q, sh, c, k);
    }
  }

  lemma {:induction false} FilledBinary(x: Expr, q: Query, sh: Shape, c: Context, k: seq<Value>)
    requires Supported(q, sh) && UsesChildWell(x, sh) && Flat(x) && (x.Cmp? || x.Plus? || x.And? || x.Or?)
    ensures FillsIn(x, q, sh, c, k)
    decreases x, 0
  {
    FilledValue(x.l, q, sh, c, k);
    FilledValue(x.r, q, sh, c, k);
  }

  lemma {:induction false} FilledUnary(x: Expr, q: Query, sh: Shape, c: Context, k: seq<Value>)
    requires Supported(q, sh) && UsesChildWell(x, sh) && Flat(x) && (x.InList? || x.IsNull? || x.Cast? || x.Paren? || x.Not?)
    ensures FillsIn(x, q, sh, c, k)
    decreases x, 0
  {
    FilledValue(x.e, q, sh, c, k);
  }

  lemma {:induction false} FilledIf(x: Expr, q: Query, sh: Shape, c: Context, k: seq<Value>)
    requires Supported(q, sh) && UsesChildWell(x, sh) && Flat(x) && x.If?
    ensures FillsIn(x, q, sh, c, k)
    decreases x, 0
  {
    FilledValue(x.test, q, sh, c, k);
    FilledValue(x.l, q, sh, c, k);
    FilledValue(x.r, q, sh, c, k);
  }

  lemma {:induction false} FilledInQuery(x: Expr, q: Query, sh: Shape, c: Context, k: seq<Value>)
    requires Supported(q, sh) && UsesChildWell(x, sh) && Flat(x) && x.InQuery?
    ensures FillsIn(x, q, sh, c, k)
    decreases x, 0
  {
    FilledValue(x.e, q, sh, c, k);
    SubqueryRows(x.q, q, sh, c, k);
  }

  lemma FilledAggregate(f: Aggregate, y: Expr, q: Query, sh: Shape, c: Context, k: seq<Value>)
    requires Supported(q, sh) && UsesChildWell(Agg(f, y), sh) && !HasAgg(y)
    ensures FillsIn(Agg(f, y), q, sh, c, k)
  {
    var e := Representative(GroupOf(Rewritten(q, sh), c, k), map[]);
    if IsMeasureSum(sh, Agg(f, y)) {
      ChildSumValue(q, sh, c, k, y.name, e);
    } else {
      OverKeysValue(q, sh, c, k, f, y, e);
    }
  }

  /** What the two queries see of a group beside its aggregates. */
  lemma FirstSeen(q: Query, sh: Shape, c: Context, k: seq<Value>) returns (b: Option<Env>)
    requires Supported(q, sh)
    ensures var e, f := Representative(GroupOf(Rewritten(q, sh), c, k), map[]), FirstOf(q, sh, c, k);
      if b.None? then e == map[] && f == map[]
      else sh.child !in b.value && sh.derived !in b.value && e == Attach(sh, c)(b.value) && f in Spread(sh, c)(b.value)
  {
    var group := BaseGroup(q, sh, c, k);
    NewGroup(q, sh, c, k);
    BaseGroupApart(q, sh, c, k);
    b := if group == [] then None else Some(group[0]);
    if group != [] { SpreadFirst(sh, c, group[0]); }
  }

  lemma SpreadFirst(sh: Shape, c: Context, e: Env)
    ensures Spread(sh, c)(e) != [] && Spread(sh, c)(e)[0] in Spread(sh, c)(e)
  {
    SpreadHasOne(sh, c, e);
  }

  lemma BaseGroupApart(q: Query, sh: Shape, c: Context, k: seq<Value>)
    requires Supported(q, sh)
    ensures BaseGroup(q, sh, c, k) != [] ==> sh.child !in BaseGroup(q, sh, c, k)[0] && sh.derived !in BaseGroup(q, sh, c, k)[0]
  {
    BaseGroupIs(q, sh, c, k);
    assert BaseGroup(q, sh, c, k) != [] ==> BaseGroup(q, sh, c, k)[0] in BaseGroup(q, sh, c, k);
  }

  lemma FilledLeaf(x: Expr, q: Query, sh: Shape, c: Context, k: seq<Value>)
    requires Supported(q, sh) && UsesChildWell(x, sh) && (x.Lit? || x.Col? || x.Exists? || x.Scalar?)
    ensures FillsIn(x, q, sh, c, k)
  {
    if x.Col? {
      var b := FirstSeen(q, sh, c, k);
      if b.Some? { SameColumn(x.alias, x.name, sh, c, b.value, FirstOf(q, sh, c, k)); }
    } else if !x.Lit? {
      SubqueryRows(x.q, q, sh, c, k);
    }
  }

  lemma SubqueryRows(p: Query, q: Query, sh: Shape, c: Context, k: seq<Value>)
    requires Supported(q, sh) && FreeOf(p, sh.child) && FreeOf(p, sh.derived)
    ensures Rows(p, c, Representative(GroupOf(Rewritten(q, sh), c, k), map[])) == Rows(p, c, FirstOf(q, sh, c, k))
  {
    var b := FirstSeen(q, sh, c, k);
    if b.Some? { SameSubquery(p, sh, c, b.value, FirstOf(q, sh, c, k)); }
  }

  lemma {:induction false} FilledRow(items: seq<Item>, q: Query, sh: Shape, c: Context, k: seq<Value>)
    requires Supported(q, sh) && forall i :: 0 <= i < |items| ==> UsesChildWell(items[i].e, sh) && Flat(items[i].e)
    ensures OutputRow(NewItems(items, sh), c, Representative(GroupOf(Rewritten(q, sh), c, k), map[]),
                      GroupOf(Rewritten(q, sh), c, k))
         == PromisedRow(items, q, sh, c, k)
  {
    if items != [] {
      FilledRow(items[1..], q, sh, c, k);
      FilledValue(items[0].e, q, sh, c, k);
      assert NewItems(items, sh)[1..] == NewItems(items[1..], sh);
    }
  }

  // The rows.

  lemma {:induction false} HavingSame(q: Query, sh: Shape, c: Context, k: seq<Value>)
    requires Supported(q, sh)
    ensures HavingHolds(Rewritten(q, sh), c, map[])(GroupOf(Rewritten(q, sh), c, k)) == Shows(q, sh, c)(k)
  {
    var group, att := BaseGroup(q, sh, c, k), Attach(sh, c);
    NewGroup(q, sh, c, k);
    forall i | 0 <= i < |group| ensures Same(Map(group, att)[i], group[i], sh.derived) {
      AttachLater(sh, c, group[i], sh.child, map[]);
    }
    EvalSame(q.having, c, Representative(Map(group, att), map[]), Representative(group, map[]), Map(group, att), group, sh.derived);
  }

  function GroupAt(q: Query, c: Context): seq<Value> -> seq<Env>
    requires q.Select?
  {
    (k: seq<Value>) => GroupOf(q, c, k)
  }

  lemma {:induction false} NewGroups(q: Query, sh: Shape, c: Context)
    requires Supported(q, sh)
    ensures var q' := Rewritten(q, sh);
      Groups(q', c, Kept(q', c, map[])) == Map(KeysInOrder(q, sh, c), GroupAt(q', c))
  {
    var q' := Rewritten(q, sh);
    var kept := Kept(q', c, map[]);
    NewKeys(q, sh, c);
    if q.group.Whole? {
      FilterAll(kept, Having(Alike(), []));
      assert Groups(q', c, kept) == [kept];
    } else {
      assert Groups(q', c, kept) == GroupsOf(kept, GroupKey(q', c));
    }
  }

  /**
   The rewritten query's rows: one for each group in which HAVING holds, with the promised values,
   without repeats if the original asks so, and as many as it asks for.
   */
  lemma {:induction false} RewrittenRows(q: Query, sh: Shape, c: Context)
    requires Supported(q, sh) && Collapses(q) && AllFlat(q.items)
    ensures var rows := Map(Filter(KeysInOrder(q, sh, c), Shows(q, sh, c)), RowFor(q, sh, c));
      Rows(Rewritten(q, sh), c, map[]) == Take(if q.distinct then Distinct(rows) else rows, q.limit)
  {
    var q', ks := Rewritten(q, sh), KeysInOrder(q, sh, c);
    StillCollapses(q, sh);
    NewGroups(q, sh, c);
    var holds, at := HavingHolds(q', c, map[]), GroupAt(q', c);
    FilterMap(ks, at, holds);
    forall k | k in ks ensures Compose(at, holds)(k) == Shows(q, sh, c)(k) {
      HavingSame(q, sh, c, k);
    }
    FilterCong(ks, Compose(at, holds), Shows(q, sh, c));
    RowsFor(q, sh, c, Filter(ks, Shows(q, sh, c)));
    assert Visible(q', map[]) == map[];
  }

  lemma {:induction false} RowsFor(q: Query, sh: Shape, c: Context, ks: seq<seq<Value>>)
    requires Supported(q, sh) && AllFlat(q.items)
    ensures Map(Map(ks, GroupAt(Rewritten(q, sh), c)), GroupRow(Rewritten(q, sh), c, map[])) == Map(ks, RowFor(q, sh, c))
  {
    var q' := Rewritten(q, sh);
    forall i | 0 <= i < |ks| ensures GroupRow(q', c, map[])(GroupAt(q', c)(ks[i])) == RowFor(q, sh, c)(ks[i]) {
      FilledRow(q.items, q, sh, c, ks[i]);
    }
  }

  lemma StillCollapses(q: Query, sh: Shape)
    requires Supported(q, sh) && Collapses(q)
    ensures Collapses(Rewritten(q, sh))
  {
    if AnyAgg(q.items) { StillAggregates(q, sh); }
  }

  /** A grouping expression shown holds the group's key. */
  lemma KeyShown(q: Query, sh: Shape, c: Context, k: seq<Value>, p: nat)
    requires Supported(q, sh) && q.group.By? && p < |q.group.keys| && q.group.keys[p].ByExpr? && !HasAgg(q.group.keys[p].e)
    requires k in KeysInOrder(q, sh, c)
    ensures |k| == |q.group.keys| && Eval(q.group.keys[p].e, c, FirstOf(q, sh, c, k), []) == k[p]
  {
    var base := Kept(WithoutChild(q, sh), c, map[]);
    var group := BaseGroup(q, sh, c, k);
    var i :| 0 <= i < |base| && Map(base, BaseKey(q, sh, c))[i] == k;
    FilterIn(base, Having(BaseKey(q, sh, c), k));
    assert base[i] in group && group[0] in group;
    assert GroupKey(q, c)(FirstOf(q, sh, c, k)) == k;
    assert GroupValue(q, p, c, FirstOf(q, sh, c, k)) == k[p];
  }

  lemma StillAggregates(q: Query, sh: Shape)
    requires Supported(q, sh) && AnyAgg(q.items)
    ensures AnyAgg(Rewritten(q, sh).items)
  {
    var i :| 0 <= i < |q.items| && HasAgg(q.items[i].e);
    StillHasAgg(q.items[i].e, sh);
    assert Rewritten(q, sh).items[i].e == NewExpr(q.items[i].e, sh);
  }

  lemma {:induction false} StillHasAgg(x: Expr, sh: Shape)
    requires |sh.sums| == |sh.measures| && HasAgg(x)
    ensures HasAgg(NewExpr(x, sh))
  {
    match x
    case Cmp(_, l, r) => if HasAgg(l) { StillHasAgg(l, sh); } else { StillHasAgg(r, sh); }
    case InList(y, _) => StillHasAgg(y, sh);
    case IsNull(y) => StillHasAgg(y, sh);
    case Plus(l, r) => if HasAgg(l) { StillHasAgg(l, sh); } else { StillHasAgg(r, sh); }
    case Cast(_, y) => StillHasAgg(y, sh);
    case Paren(y) => StillHasAgg(y, sh);
    case Not(y) => StillHasAgg(y, sh);
    case And(l, r) => if HasAgg(l) { StillHasAgg(l, sh); } else { StillHasAgg(r, sh); }
    case Or(l, r) => if HasAgg(l) { StillHasAgg(l, sh); } else { StillHasAgg(r, sh); }
    case If(t, l, r) =>
      if HasAgg(t) { StillHasAgg(t, sh); } else if HasAgg(l) { StillHasAgg(l, sh); } else { StillHasAgg(r, sh); }
    case Agg(_, _) =>
    case InQuery(y, _) => StillHasAgg(y, sh);
    case _ =>
  }

  // Aggregates over the child's key columns: once per combination, where the original has once per child row.

  function Once(x: Expr, sh: Shape, c: Context, g: Value -> int): Env -> int { (e: Env) => g(OnChild(x, sh, c)(e)) }

  function PerChild(x: Expr, sh: Shape, c: Context, g: Value -> int): Env -> int {
    (e: Env) => |Spread(sh, c)(e)| * g(OnChild(x, sh, c)(e))
  }

  function Extra(x: Expr, sh: Shape, c: Context, g: Value -> int): Env -> int {
    (e: Env) => (|Spread(sh, c)(e)| - 1) * g(OnChild(x, sh, c)(e))
  }

  lemma {:induction false} EvenlySpread(x: Expr, sh: Shape, c: Context, g: Value -> int, e: Env)
    requires Proper(sh) && UsesChildWell(x, sh) && !HasAgg(x) && sh.child !in e && sh.derived !in e
    ensures TotalOf(Spread(sh, c), Compose(ValueOf(x, c), g))(e) == PerChild(x, sh, c, g)(e)
  {
    OnAttached(x, sh, c, e);
    TotalEven(Spread(sh, c)(e), Compose(ValueOf(x, c), g), g(OnChild(x, sh, c)(e)));
  }

  /** What such an expression totals to, over the original's group and over the rewritten query's. */
  lemma {:induction false} OverKeysTotals(q: Query, sh: Shape, c: Context, k: seq<Value>, x: Expr, g: Value -> int)
    requires Supported(q, sh) && UsesChildWell(x, sh) && !HasAgg(x)
    ensures var group := BaseGroup(q, sh, c, k);
      && Total(Map(GroupOf(q, c, k), ValueOf(x, c)), g) == Total(group, PerChild(x, sh, c, g))
      && Total(Map(group, OnChild(x, sh, c)), g) == Total(group, Once(x, sh, c, g))
      && Total(group, PerChild(x, sh, c, g)) == Total(group, Once(x, sh, c, g)) + Total(group, Extra(x, sh, c, g))
  {
    var group := BaseGroup(q, sh, c, k);
    TotalMap(GroupOf(q, c, k), ValueOf(x, c), g);
    OldGroupTotal(q, sh, c, k, Compose(ValueOf(x, c), g));
    BaseGroupIs(q, sh, c, k);
    forall e | e in group ensures TotalOf(Spread(sh, c), Compose(ValueOf(x, c), g))(e) == PerChild(x, sh, c, g)(e) {
      EvenlySpread(x, sh, c, g, e);
    }
    TotalCong(group, TotalOf(Spread(sh, c), Compose(ValueOf(x, c), g)), PerChild(x, sh, c, g));
    TotalMap(group, OnChild(x, sh, c), g);
    TotalCong(group, Compose(OnChild(x, sh, c), g), Once(x, sh, c, g));
    TotalPlus(group, Once(x, sh, c, g), Extra(x, sh, c, g), PerChild(x, sh, c, g));
  }

  /** A COUNT over the child's key columns keeps its value if and only if each combination it counts has one child row at most. */
  lemma {:induction false} CountAgrees(q: Query, sh: Shape, c: Context, k: seq<Value>, x: Expr, e: Env)
    requires Supported(q, sh) && UsesChildWell(x, sh) && !HasAgg(x)
    ensures var group := BaseGroup(q, sh, c, k);
      Eval(Agg(Count, x), c, e, GroupOf(q, c, k)) == OnceEach(q, sh, c, k, Count, x) <==>
        forall b :: b in group && OnChild(x, sh, c)(b) != Null ==> |Spread(sh, c)(b)| == 1
  {
    AggMeaning(Count, x, c, e, GroupOf(q, c, k));
    CountTotals(q, sh, c, k, x);
    CountsEqual(Map(GroupOf(q, c, k), ValueOf(x, c)), Map(BaseGroup(q, sh, c, k), OnChild(x, sh, c)));
  }

  lemma {:induction false} CountTotals(q: Query, sh: Shape, c: Context, k: seq<Value>, x: Expr)
    requires Supported(q, sh) && UsesChildWell(x, sh) && !HasAgg(x)
    ensures var group := BaseGroup(q, sh, c, k);
      Total(Map(GroupOf(q, c, k), ValueOf(x, c)), NotNull) == Total(Map(group, OnChild(x, sh, c)), NotNull) <==>
        forall b :: b in group && OnChild(x, sh, c)(b) != Null ==> |Spread(sh, c)(b)| == 1
  {
    OverKeysTotals(q, sh, c, k, x, NotNull);
    CountedExtra(BaseGroup(q, sh, c, k), x, sh, c);
  }

  lemma CountsEqual(vs: seq<Value>, ws: seq<Value>)
    ensures Aggregated(Count, vs) == Aggregated(Count, ws) <==> Total(vs, NotNull) == Total(ws, NotNull)
  {
  }

  lemma SumsEqual(vs: seq<Value>, ws: seq<Value>)
    requires Total(vs, IsNum) == 0 <==> Total(ws, IsNum) == 0
    requires Total(ws, IsNum) == 0 ==> Total(vs, NumOf) == Total(ws, NumOf)
    ensures Aggregated(Sum, vs) == Aggregated(Sum, ws) <==> Total(vs, NumOf) == Total(ws, NumOf)
  {
  }

  lemma {:induction false} CountedExtra(group: seq<Env>, x: Expr, sh: Shape, c: Context)
    ensures Total(group, Extra(x, sh, c, NotNull)) == 0 <==>
              forall b :: b in group && OnChild(x, sh, c)(b) != Null ==> |Spread(sh, c)(b)| == 1
  {
    var extra := Extra(x, sh, c, NotNull);
    forall b | b in group
      ensures extra(b) >= 0 && (extra(b) == 0 <==> (OnChild(x, sh, c)(b) != Null ==> |Spread(sh, c)(b)| == 1))
    {
      SpreadHasOne(sh, c, b);
    }
    TotalPositive(group, extra);
  }

  /** A SUM over them keeps its value if and only if what the further child rows add comes to nothing. */
  lemma {:induction false} SumAgrees(q: Query, sh: Shape, c: Context, k: seq<Value>, x: Expr, e: Env)
    requires Supported(q, sh) && UsesChildWell(x, sh) && !HasAgg(x)
    ensures Eval(Agg(Sum, x), c, e, GroupOf(q, c, k)) == OnceEach(q, sh, c, k, Sum, x) <==>
              Total(BaseGroup(q, sh, c, k), Extra(x, sh, c, NumOf)) == 0
  {
    AggMeaning(Sum, x, c, e, GroupOf(q, c, k));
    SumTotals(q, sh, c, k, x);
    SumsEqual(Map(GroupOf(q, c, k), ValueOf(x, c)), Map(BaseGroup(q, sh, c, k), OnChild(x, sh, c)));
  }

  lemma {:induction false} SumTotals(q: Query, sh: Shape, c: Context, k: seq<Value>, x: Expr)
    requires Supported(q, sh) && UsesChildWell(x, sh) && !HasAgg(x)
    ensures var group := BaseGroup(q, sh, c, k);
      var olds, news, extra := Map(GroupOf(q, c, k), ValueOf(x, c)), Map(group, OnChild(x, sh, c)), Total(group, Extra(x, sh, c, NumOf));
      && (Total(olds, IsNum) == 0 <==> Total(news, IsNum) == 0) && (Total(news, IsNum) == 0 ==> extra == 0)
      && Total(olds, NumOf) == Total(news, NumOf) + extra
  {
    OverKeysTotals(q, sh, c, k, x, NumOf);
    OverKeysTotals(q, sh, c, k, x, IsNum);
    NumbersAlike(BaseGroup(q, sh, c, k), x, sh, c);
  }

  /** Both see a number or neither does, and without one there is nothing to add. */
  lemma {:induction false} NumbersAlike(group: seq<Env>, x: Expr, sh: Shape, c: Context)
    ensures Total(group, PerChild(x, sh, c, IsNum)) == 0 <==> Total(group, Once(x, sh, c, IsNum)) == 0
    ensures Total(group, Once(x, sh, c, IsNum)) == 0 ==> Total(group, Extra(x, sh, c, NumOf)) == 0
  {
    var all, once, extra := PerChild(x, sh, c, IsNum), Once(x, sh, c, IsNum), Extra(x, sh, c, NumOf);
    forall b | b in group
      ensures all(b) >= 0 && once(b) >= 0 && (all(b) == 0 <==> once(b) == 0) && (once(b) == 0 ==> extra(b) == 0)
    {
      SpreadHasOne(sh, c, b);
    }
    HitsAgree(group, all, once);
    TotalPositive(group, once);
    if Total(group, once) == 0 { TotalZero(group, extra); }
  }

  // Counting child rows.

  /** CASE WHEN child.key IS NULL THEN 0 ELSE 1 END */
  function IsChild(sh: Shape): Expr
    requires |sh.keys| > 0
  {
    If(IsNull(Col(sh.child, sh.keys[0].0)), Lit(Num(0)), Lit(Num(1)))
  }

  function ChildRows(sh: Shape, c: Context): Env -> int { (e: Env) => |Children(sh, c, e)| }

  function HasChild(sh: Shape, c: Context): Env -> int { (e: Env) => if Children(sh, c, e) == [] then 0 else 1 }

  lemma {:induction false} IsChildValue(sh: Shape, c: Context, e: Env)
    requires Proper(sh) && sh.child !in e
    ensures OnChild(IsChild(sh), sh, c)(e) == Num(HasChild(sh, c)(e))
  {
    var kids, key := Children(sh, c, e), sh.keys[0].0;
    var x := Spread(sh, c)(e)[0];
    if kids == [] {
      assert x == e && Get(RowOf(x, sh.child), key) == Null;
    } else {
      FilterIn(SourceRows(Named(sh.table), c, map[]), Joins(sh, e));
      assert kids[0] in kids && Joins(sh, e)(kids[0]);
      assert Compare(Eq, Get(kids[0], key), Get(RowOf(e, sh.parent), sh.keys[0].1)) == Bool(true);
      assert x == e[sh.child := kids[0]] && Get(RowOf(x, sh.child), key) != Null;
    }
    IsChildOn(sh, c, x);
  }

  lemma IsChildOn(sh: Shape, c: Context, x: Env)
    requires |sh.keys| > 0
    ensures Eval(IsChild(sh), c, x, []) == if Get(RowOf(x, sh.child), sh.keys[0].0) == Null then Num(0) else Num(1)
  {
    assert Eval(Col(sh.child, sh.keys[0].0), c, x, []) == Get(RowOf(x, sh.child), sh.keys[0].0);
    assert Eval(Lit(Num(0)), c, x, []) == Num(0) && Eval(Lit(Num(1)), c, x, []) == Num(1);
  }

  /**
   SUM(CASE WHEN child.key IS NULL THEN 0 ELSE 1 END), which counts the child rows of a group, counts
   after the rewrite the combinations that have any: the same if and only if none has several.
   */
  lemma {:induction false} ItemsCounted(q: Query, sh: Shape, c: Context, k: seq<Value>, e: Env)
    requires Supported(q, sh) && BaseGroup(q, sh, c, k) != []
    ensures var group, counted := BaseGroup(q, sh, c, k), Agg(Sum, IsChild(sh));
      && UsesChildWell(counted, sh)
      && Eval(counted, c, e, GroupOf(q, c, k)) == Num(Total(group, ChildRows(sh, c)))
      && Promised(q, sh, c, k, Sum, IsChild(sh)) == Num(Total(group, HasChild(sh, c)))
      && (Total(group, ChildRows(sh, c)) == Total(group, HasChild(sh, c)) <==>
            forall b :: b in group ==> |Children(sh, c, b)| <= 1)
  {
    var group, x := BaseGroup(q, sh, c, k), IsChild(sh);
    IsChildMeans(sh);
    BaseGroupIs(q, sh, c, k);
    AggMeaning(Sum, x, c, e, GroupOf(q, c, k));
    OverKeysTotals(q, sh, c, k, x, NumOf);
    OverKeysTotals(q, sh, c, k, x, IsNum);
    CountsOfChildren(group, sh, c);
    Several(group, sh, c);
  }

  /** One order with two items: the original counts two of them, the rewritten query one. */
  lemma ItemLost(q: Query, sh: Shape, c: Context, k: seq<Value>, e: Env, b: Env)
    requires Supported(q, sh) && BaseGroup(q, sh, c, k) == [b] && |Children(sh, c, b)| == 2
    ensures Eval(Agg(Sum, IsChild(sh)), c, e, GroupOf(q, c, k)) == Num(2)
    ensures Promised(q, sh, c, k, Sum, IsChild(sh)) == Num(1)
  {
    ItemsCounted(q, sh, c, k, e);
    assert Total([b], ChildRows(sh, c)) == 2 + Total([], ChildRows(sh, c));
    assert Total([b], HasChild(sh, c)) == 1 + Total([], HasChild(sh, c));
  }

  lemma IsChildMeans(sh: Shape)
    requires Proper(sh)
    ensures UsesChildWell(IsChild(sh), sh) && !HasAgg(IsChild(sh)) && !IsMeasureSum(sh, Agg(Sum, IsChild(sh)))
  {
    assert IsKey(sh, sh.keys[0].0);
    NoAggregate(sh.child, sh.keys[0].0);
    assert UsesChildWell(IsNull(Col(sh.child, sh.keys[0].0)), sh);
  }

  lemma NoAggregate(alias: string, key: string)
    ensures !HasAgg(If(IsNull(Col(alias, key)), Lit(Num(0)), Lit(Num(1))))
  {
    assert !HasAgg(IsNull(Col(alias, key))) && !HasAgg(Lit(Num(0))) && !HasAgg(Lit(Num(1)));
  }

  lemma {:induction false} CountsOfChildren(group: seq<Env>, sh: Shape, c: Context)
    requires Proper(sh) && group != [] && forall b :: b in group ==> sh.child !in b
    ensures Total(group, Once(IsChild(sh), sh, c, NumOf)) == Total(group, HasChild(sh, c))
    ensures Total(group, PerChild(IsChild(sh), sh, c, NumOf)) == Total(group, ChildRows(sh, c))
    ensures Total(group, Once(IsChild(sh), sh, c, IsNum)) > 0 && Total(group, PerChild(IsChild(sh), sh, c, IsNum)) > 0
  {
    var x := IsChild(sh);
    forall b | b in group
      ensures Once(x, sh, c, NumOf)(b) == HasChild(sh, c)(b) && Once(x, sh, c, IsNum)(b) == 1
      ensures PerChild(x, sh, c, NumOf)(b) == ChildRows(sh, c)(b) && PerChild(x, sh, c, IsNum)(b) >= 1
    {
      IsChildValue(sh, c, b);
    }
    TotalCong(group, Once(x, sh, c, NumOf), HasChild(sh, c));
    TotalCong(group, PerChild(x, sh, c, NumOf), ChildRows(sh, c));
    TotalPositive(group, Once(x, sh, c, IsNum));
    TotalPositive(group, PerChild(x, sh, c, IsNum));
    assert group[0] in group;
  }

  function Further(sh: Shape, c: Context): Env -> int { (e: Env) => |Children(sh, c, e)| - HasChild(sh, c)(e) }

  lemma {:induction false} Several(group: seq<Env>, sh: Shape, c: Context)
    ensures Total(group, ChildRows(sh, c)) == Total(group, HasChild(sh, c)) <==>
              forall b :: b in group ==> |Children(sh, c, b)| <= 1
  {
    TotalPlus(group, HasChild(sh, c), Further(sh, c), ChildRows(sh, c));
    TotalPositive(group, Further(sh, c));
  }
}
