/**
 The query language the rewrites and analyses are stated over, and its meaning on an
 arbitrary database.

 Columns are qualified, as name resolution leaves them, and identifiers are lower case.
 A FROM list is a left-deep tree of joins.  A combination of rows maps each alias to a
 row; an outer join's unmatched side is simply absent, and an absent alias or column
 reads as NULL.  Joins follow section 7.5 of ISO/IEC 9075:1992.
 */
module Sql {
  import opened Seqs
  import opened Values

  type Env = map<string, Row>
  type Tables = map<string, seq<Row>>

  /** The stored tables, and the CTEs in scope, which hide tables of the same name. */
  datatype Context = Context(tables: Tables, ctes: Tables)

  function RowOf(e: Env, alias: string): Row {
    if alias in e then e[alias] else map[]
  }

  // Syntax.

  datatype Expr =
    | Lit(v: Value)
    | Col(alias: string, name: string)
    | Cmp(op: Comparison, l: Expr, r: Expr)
    | InList(e: Expr, items: seq<Value>)
    | IsNull(e: Expr)
    | Plus(l: Expr, r: Expr)
    | Cast(kind: CastKind, e: Expr)
    | Paren(e: Expr)
    | Not(e: Expr)
    | And(l: Expr, r: Expr)
    | Or(l: Expr, r: Expr)
    | If(test: Expr, l: Expr, r: Expr)
    | Agg(f: Aggregate, e: Expr)
    | Exists(q: Query)
    | InQuery(e: Expr, q: Query)
    | Scalar(q: Query)

  const TRUE := Lit(Bool(true))

  /** An output column; an unaliased computed one has the empty name. */
  datatype Item = Item(name: string, e: Expr)

  /** A GROUP BY entry: an expression, or the name of an output column. */
  datatype GroupItem = ByExpr(e: Expr) | ByName(name: string)

  datatype Grouping = Whole | By(keys: seq<GroupItem>)

  datatype JoinKind = Inner | Cross | LeftOuter | RightOuter | FullOuter

  datatype Source = Named(table: string) | Derived(q: Query)

  datatype From =
    | One(src: Source, alias: string)
    | Join(left: From, kind: JoinKind, src: Source, alias: string, on: Expr)

  /** An absent WHERE, ON or HAVING is the literal TRUE. */
  datatype Query =
    | Select(from: From, where: Expr, group: Grouping, having: Expr,
             star: bool, items: seq<Item>, distinct: bool, limit: Option<nat>)
    | Union(l: Query, r: Query, all: bool)
    | With(name: string, def: Query, body: Query)

  function Aliases(f: From): set<string> {
    match f
    case One(_, a) => {a}
    case Join(l, _, _, a, _) => Aliases(l) + {a}
  }

  /** PostgreSQL refuses a FROM list that brings one alias in twice. */
  predicate DistinctAliases(f: From) {
    f.Join? ==> f.alias !in Aliases(f.left) && DistinctAliases(f.left)
  }

  /** An aggregate of this query's own; one in a subquery belongs to that query. */
  predicate HasAgg(e: Expr) {
    match e
    case Lit(_) => false
    case Col(_, _) => false
    case Cmp(_, l, r) => HasAgg(l) || HasAgg(r)
    case InList(x, _) => HasAgg(x)
    case IsNull(x) => HasAgg(x)
    case Plus(l, r) => HasAgg(l) || HasAgg(r)
    case Cast(_, x) => HasAgg(x)
    case Paren(x) => HasAgg(x)
    case Not(x) => HasAgg(x)
    case And(l, r) => HasAgg(l) || HasAgg(r)
    case Or(l, r) => HasAgg(l) || HasAgg(r)
    case If(t, l, r) => HasAgg(t) || HasAgg(l) || HasAgg(r)
    case Agg(_, _) => true
    case Exists(_) => false
    case InQuery(x, _) => HasAgg(x)
    case Scalar(_) => false
  }

  predicate AnyAgg(items: seq<Item>) {
    exists i :: 0 <= i < |items| && HasAgg(items[i].e)
  }

  // Meaning.

  /** `group` holds the rows an aggregate ranges over. */
  function Eval(x: Expr, c: Context, e: Env, group: seq<Env>): Value
    decreases x, 0
  {
    match x
    case Lit(v) => v
    case Col(a, n) => Get(RowOf(e, a), n)
    case Cmp(op, l, r) => Compare(op, Eval(l, c, e, group), Eval(r, c, e, group))
    case InList(y, items) => Member(Eval(y, c, e, group), items)
    case IsNull(y) => Bool(Eval(y, c, e, group) == Null)
    case Plus(l, r) => Add(Eval(l, c, e, group), Eval(r, c, e, group))
    case Cast(k, y) => CastValue(k, Eval(y, c, e, group))
    case Paren(y) => Eval(y, c, e, group)
    case Not(y) => Not3(Eval(y, c, e, group))
    case And(l, r) => And3(Eval(l, c, e, group), Eval(r, c, e, group))
    case Or(l, r) => Or3(Eval(l, c, e, group), Eval(r, c, e, group))
    case If(t, l, r) =>
      if IsTrue(Eval(t, c, e, group)) then Eval(l, c, e, group) else Eval(r, c, e, group)
    case Agg(f, y) => Aggregated(f, Map(group, ValueOf(y, c)))
    case Exists(q) => Bool(Rows(q, c, e) != [])
    case InQuery(y, q) => Member(Eval(y, c, e, group), Map(Rows(q, c, e), OnlyValue))
    case Scalar(q) => First(Rows(q, c, e))
  }

  /** An expression without an aggregate context, as a function of the combination. */
  function ValueOf(x: Expr, c: Context): Env -> Value
    decreases x, 1
  {
    (e: Env) => Eval(x, c, e, [])
  }

  function Holds(x: Expr, c: Context): Env -> bool
    decreases x, 1
  {
    (e: Env) => IsTrue(Eval(x, c, e, []))
  }

  /** An ON condition, which also sees the enclosing queries' rows. */
  function HoldsAbove(x: Expr, c: Context, base: Env): Env -> bool
    decreases x, 1
  {
    (e: Env) => IsTrue(Eval(x, c, base + e, []))
  }

  function Add(a: Value, b: Value): Value {
    if a.Num? && b.Num? then Num(a.n + b.n) else Null
  }

  /** The value of a one-column row; the single column of a subquery is named `value`. */
  function OnlyValue(r: Row): Value { Get(r, "value") }

  function First(rows: seq<Row>): Value {
    if rows == [] then Null else OnlyValue(rows[0])
  }

  function SourceRows(s: Source, c: Context, base: Env): seq<Row>
    decreases s
  {
    match s
    case Named(t) =>
      if t in c.ctes then c.ctes[t] else if t in c.tables then c.tables[t] else []
    case Derived(q) => Rows(q, c, base)
  }

  function Extend(e: Env, alias: string): Row -> Env { (r: Row) => e[alias := r] }

  /** `e` extended by each row it joins with. */
  function Matches(e: Env, alias: string, rows: seq<Row>, ok: Env -> bool): seq<Env> {
    Filter(Map(rows, Extend(e, alias)), ok)
  }

  function OrUnmatched(e: Env, found: seq<Env>): seq<Env> {
    if found == [] then [e] else found
  }

  function InnerStep(alias: string, rows: seq<Row>, ok: Env -> bool): Env -> seq<Env> {
    (e: Env) => Matches(e, alias, rows, ok)
  }

  function OuterStep(alias: string, rows: seq<Row>, ok: Env -> bool): Env -> seq<Env> {
    (e: Env) => OrUnmatched(e, Matches(e, alias, rows, ok))
  }

  predicate Matched(r: Row, alias: string, lefts: seq<Env>, ok: Env -> bool) {
    exists e :: e in lefts && ok(e[alias := r])
  }

  function Lonely(alias: string, lefts: seq<Env>, ok: Env -> bool): Row -> bool {
    (r: Row) => !Matched(r, alias, lefts, ok)
  }

  /** The rows of an outer join's right side that no combination matches. */
  function Unmatched(lefts: seq<Env>, alias: string, rows: seq<Row>, ok: Env -> bool): seq<Env> {
    Map(Filter(rows, Lonely(alias, lefts, ok)), Extend(map[], alias))
  }

  function JoinRows(kind: JoinKind, lefts: seq<Env>, alias: string, rows: seq<Row>, ok: Env -> bool): seq<Env> {
    match kind
    case Inner => FlatMap(lefts, InnerStep(alias, rows, ok))
    case Cross => FlatMap(lefts, InnerStep(alias, rows, ok))
    case LeftOuter => FlatMap(lefts, OuterStep(alias, rows, ok))
    case RightOuter => FlatMap(lefts, InnerStep(alias, rows, ok)) + Unmatched(lefts, alias, rows, ok)
    case FullOuter => FlatMap(lefts, OuterStep(alias, rows, ok)) + Unmatched(lefts, alias, rows, ok)
  }

  /** The combinations a FROM list yields; `base` holds the enclosing queries' rows. */
  function FromRows(f: From, c: Context, base: Env): seq<Env>
    decreases f
  {
    match f
    case One(s, a) => Map(SourceRows(s, c, base), Extend(map[], a))
    case Join(l, k, s, a, on) =>
      JoinRows(k, FromRows(l, c, base), a, SourceRows(s, c, base), HoldsAbove(on, c, base))
  }

  function Above(base: Env): Env -> Env { (l: Env) => base + l }

  /** What a select sees of the enclosing queries: its own aliases hide theirs. */
  function Visible(q: Query, outer: Env): Env
    requires q.Select?
  {
    outer - Aliases(q.from)
  }

  /** The combinations WHERE keeps, each with the enclosing queries' rows in view. */
  function Kept(q: Query, c: Context, outer: Env): seq<Env>
    requires q.Select?
    decreases q, 0
  {
    var base := Visible(q, outer);
    Filter(Map(FromRows(q.from, c, base), Above(base)), Holds(q.where, c))
  }

  /** The output row of one combination, or of one group of them; the first of two equal names wins. */
  function OutputRow(items: seq<Item>, c: Context, e: Env, group: seq<Env>): (row: Row)
    ensures forall n :: n in row <==> exists i :: 0 <= i < |items| && items[i].name == n
    decreases items
  {
    if items == [] then map[]
    else OutputRow(items[1..], c, e, group)[items[0].name := Eval(items[0].e, c, e, group)]
  }

  function StarRow(f: From, e: Env): Row {
    match f
    case One(_, a) => RowOf(e, a)
    case Join(l, _, _, a, _) => StarRow(l, e) + RowOf(e, a)
  }

  /** The value of one GROUP BY entry on one combination. */
  function GroupValue(q: Query, i: nat, c: Context, e: Env): Value
    requires q.Select? && q.group.By? && i < |q.group.keys|
    decreases q, 0
  {
    match q.group.keys[i]
    case ByExpr(_) => Eval(q.group.keys[i].e, c, e, [])
    case ByName(n) => NamedValue(q.items, n, c, e)
  }

  function NamedValue(items: seq<Item>, name: string, c: Context, e: Env): Value
    decreases items
  {
    if items == [] then Null
    else if items[0].name == name then Eval(items[0].e, c, e, [])
    else NamedValue(items[1..], name, c, e)
  }

  function GroupKey(q: Query, c: Context): Env -> seq<Value>
    requires q.Select? && q.group.By?
    decreases q, 1
  {
    (e: Env) => seq(|q.group.keys|, i requires 0 <= i < |q.group.keys| => GroupValue(q, i, c, e))
  }

  /** The elements without repeats, in order of first appearance. */
  function Distinct<T(==,!new)>(s: seq<T>): (r: seq<T>)
    ensures forall x :: x in r <==> x in s
    ensures forall i, j :: 0 <= i < j < |r| ==> r[i] != r[j]
  {
    if s == [] then []
    else
      var front := Distinct(s[..|s| - 1]);
      if s[|s| - 1] in front then front else front + [s[|s| - 1]]
  }

  function Having<K(==)>(keyOf: Env -> K, k: K): Env -> bool { (e: Env) => keyOf(e) == k }

  /** The combinations of each key, in the order the keys first appear. */
  function GroupsOf<K(==,!new)>(kept: seq<Env>, keyOf: Env -> K): seq<seq<Env>> {
    Map(Distinct(Map(kept, keyOf)), (k: K) => Filter(kept, Having(keyOf, k)))
  }

  /** The groups of a select that groups or aggregates; without GROUP BY all rows are one. */
  function Groups(q: Query, c: Context, kept: seq<Env>): seq<seq<Env>>
    requires q.Select?
    decreases q, 2
  {
    match q.group
    case Whole => [kept]
    case By(_) => GroupsOf(kept, GroupKey(q, c))
  }

  predicate Collapses(q: Query)
    requires q.Select?
  {
    q.group.By? || AnyAgg(q.items) || q.having != TRUE
  }

  function Representative(group: seq<Env>, base: Env): Env {
    if group == [] then base else group[0]
  }

  function HavingHolds(q: Query, c: Context, base: Env): seq<Env> -> bool
    requires q.Select?
    decreases q, 1
  {
    (g: seq<Env>) => IsTrue(Eval(q.having, c, Representative(g, base), g))
  }

  function GroupRow(q: Query, c: Context, base: Env): seq<Env> -> Row
    requires q.Select?
    decreases q, 1
  {
    (g: seq<Env>) => OutputRow(q.items, c, Representative(g, base), g)
  }

  function PlainRow(q: Query, c: Context): Env -> Row
    requires q.Select?
    decreases q, 1
  {
    (e: Env) => (if q.star then StarRow(q.from, e) else map[]) + OutputRow(q.items, c, e, [])
  }

  /** A select's rows before DISTINCT and LIMIT. */
  function Projected(q: Query, c: Context, outer: Env): seq<Row>
    requires q.Select?
    decreases q, 3
  {
    var base := Visible(q, outer);
    var kept := Kept(q, c, outer);
    if Collapses(q) then
      Map(Filter(Groups(q, c, kept), HavingHolds(q, c, base)), GroupRow(q, c, base))
    else
      Map(kept, PlainRow(q, c))
  }

  function Take<T>(s: seq<T>, limit: Option<nat>): seq<T> {
    if limit.None? || limit.value >= |s| then s else s[..limit.value]
  }

  function Rows(q: Query, c: Context, outer: Env): seq<Row>
    decreases q, 4
  {
    match q
    case Select(_, _, _, _, _, _, distinct, limit) =>
      var rows := Projected(q, c, outer);
      Take(if distinct then Distinct(rows) else rows, limit)
    case Union(l, r, all) =>
      var rows := Rows(l, c, outer) + Rows(r, c, outer);
      if all then rows else Distinct(rows)
    case With(name, def, body) =>
      Rows(body, c.(ctes := c.ctes[name := Rows(def, c, outer)]), outer)
  }

  // Walking the whole tree: whether every query node in it, itself included, satisfies `p`.

  predicate All(q: Query, p: Query -> bool)
    decreases q, 1
  {
    p(q) &&
    match q
    case Select(from, where, group, having, _, items, _, _) =>
      AllFrom(from, p) && AllExpr(where, p) && AllGrouping(group, p) && AllExpr(having, p) && AllItems(items, p)
    case Union(l, r, _) => All(l, p) && All(r, p)
    case With(_, def, body) => All(def, p) && All(body, p)
  }

  predicate AllFrom(f: From, p: Query -> bool)
    decreases f
  {
    match f
    case One(s, _) => AllSource(s, p)
    case Join(l, _, s, _, on) => AllFrom(l, p) && AllSource(s, p) && AllExpr(on, p)
  }

  predicate AllSource(s: Source, p: Query -> bool)
    decreases s
  {
    s.Derived? ==> All(s.q, p)
  }

  predicate AllExpr(x: Expr, p: Query -> bool)
    decreases x
  {
    match x
    case Lit(_) => true
    case Col(_, _) => true
    case Cmp(_, l, r) => AllExpr(l, p) && AllExpr(r, p)
    case InList(y, _) => AllExpr(y, p)
    case IsNull(y) => AllExpr(y, p)
    case Plus(l, r) => AllExpr(l, p) && AllExpr(r, p)
    case Cast(_, y) => AllExpr(y, p)
    case Paren(y) => AllExpr(y, p)
    case Not(y) => AllExpr(y, p)
    case And(l, r) => AllExpr(l, p) && AllExpr(r, p)
    case Or(l, r) => AllExpr(l, p) && AllExpr(r, p)
    case If(t, l, r) => AllExpr(t, p) && AllExpr(l, p) && AllExpr(r, p)
    case Agg(_, y) => AllExpr(y, p)
    case Exists(q) => All(q, p)
    case InQuery(y, q) => AllExpr(y, p) && All(q, p)
    case Scalar(q) => All(q, p)
  }

  predicate AllItems(items: seq<Item>, p: Query -> bool)
    decreases items
  {
    items != [] ==> AllExpr(items[0].e, p) && AllItems(items[1..], p)
  }

  predicate AllGrouping(g: Grouping, p: Query -> bool)
    decreases g
  {
    match g
    case Whole => true
    case By(keys) => AllKeys(keys, p)
  }

  predicate AllKey(key: GroupItem, p: Query -> bool)
    decreases key
  {
    match key
    case ByExpr(x) => AllExpr(x, p)
    case ByName(_) => true
  }

  predicate AllKeys(keys: seq<GroupItem>, p: Query -> bool)
    decreases keys
  {
    keys != [] ==> AllKey(keys[0], p) && AllKeys(keys[1..], p)
  }

  // Evaluation depends on the functions it is given only through their values.

  lemma {:induction false} JoinRowsCong(kind: JoinKind, lefts: seq<Env>, alias: string, rows: seq<Row>,
                                        ok: Env -> bool, ok': Env -> bool)
    requires forall e, r :: e in lefts && r in rows ==> ok(e[alias := r]) == ok'(e[alias := r])
    ensures JoinRows(kind, lefts, alias, rows, ok) == JoinRows(kind, lefts, alias, rows, ok')
  {
    forall e | e in lefts ensures Matches(e, alias, rows, ok) == Matches(e, alias, rows, ok') {
      forall x | x in Map(rows, Extend(e, alias)) ensures ok(x) == ok'(x) {
        var i :| 0 <= i < |rows| && x == e[alias := rows[i]];
        assert rows[i] in rows;
      }
      FilterCong(Map(rows, Extend(e, alias)), ok, ok');
    }
    FlatMapCong(lefts, InnerStep(alias, rows, ok), InnerStep(alias, rows, ok'));
    FlatMapCong(lefts, OuterStep(alias, rows, ok), OuterStep(alias, rows, ok'));
    FilterCong(rows, Lonely(alias, lefts, ok), Lonely(alias, lefts, ok'));
  }

  lemma {:induction false} GroupsCong<K(!new)>(kept: seq<Env>, keyOf: Env -> K, keyOf': Env -> K)
    requires forall e :: e in kept ==> keyOf(e) == keyOf'(e)
    ensures GroupsOf(kept, keyOf) == GroupsOf(kept, keyOf')
  {
    MapCong(kept, keyOf, keyOf');
    forall k: K ensures Filter(kept, Having(keyOf, k)) == Filter(kept, Having(keyOf', k)) {
      FilterCong(kept, Having(keyOf, k), Having(keyOf', k));
    }
  }
}
