/**
 The rewrites of a query made after the gates (app/sql/values.py, app/sql/precision.py): they
 change text literals into text literals and read single-precision columns through a cast.

 Main results: `RewriteIsAlike`, that nothing else changes; and `AdmittedAlike`, that queries alike
 in that sense get the same verdict of the authority and of the policy's table, column, function
 and join checks, so that the pipeline need not run them again.
 */
module PostGates {
  import opened Seqs
  import opened Sql
  import opened Values
  import opened ColumnTrace
  import JoinPolicy
  import RowKeys

  // The rewrites, one walk for both.

  type Known = (string, string, string) -> string

  type Single = (string, string) -> bool

  /** `spelling` maps a literal compared with a table's column to the stored spelling, or to itself. */
  datatype Pass = Respell(spelling: Known) | Widen(single: Single)

  /** The physical tables a FROM list reads directly, by alias. */
  function Direct(f: From, ctes: set<string>): map<string, string> {
    var rest := if f.Join? then Direct(f.left, ctes) else map[];
    if f.src.Named? && f.src.table !in ctes then rest[f.alias := f.src.table] else rest
  }

  /** The text an unstored literal gets beside a column. */
  function Spelled(p: Pass, column: Expr, v: Value, tables: map<string, string>): Value {
    if p.Respell? && column.Col? && v.Text? && column.alias in tables
    then Text(p.spelling(tables[column.alias], column.name, v.s)) else v
  }

  function Beside(p: Pass, x: Expr, other: Expr, tables: map<string, string>): Expr {
    if x.Lit? then Lit(Spelled(p, other, x.v, tables)) else x
  }

  predicate AllText(items: seq<Value>) {
    forall i :: 0 <= i < |items| ==> items[i].Text?
  }

  function SpelledAll(p: Pass, column: Expr, items: seq<Value>, tables: map<string, string>): seq<Value> {
    seq(|items|, i requires 0 <= i < |items| => Spelled(p, column, items[i], tables))
  }

  predicate Widens(p: Pass, x: Expr, tables: map<string, string>) {
    p.Widen? && x.Col? && x.alias in tables && p.single(tables[x.alias], x.name)
  }

  function RewriteExpr(p: Pass, x: Expr, tables: map<string, string>, ctes: set<string>, inSum: bool): Expr
    decreases x
  {
    match x
    case Lit(_) => x
    case Col(_, _) => if inSum && Widens(p, x, tables) then Cast(ToDouble, x) else x
    case Cmp(op, l, r) =>
      var equality := op.Eq? || op.Ne?;
      Cmp(op, if equality && l.Lit? then Beside(p, l, r, tables) else RewriteExpr(p, l, tables, ctes, inSum),
              if equality && r.Lit? then Beside(p, r, l, tables) else RewriteExpr(p, r, tables, ctes, inSum))
    case InList(y, items) =>
      InList(RewriteExpr(p, y, tables, ctes, inSum), if AllText(items) then SpelledAll(p, y, items, tables) else items)
    case IsNull(y) => IsNull(RewriteExpr(p, y, tables, ctes, inSum))
    case Plus(l, r) => Plus(RewriteExpr(p, l, tables, ctes, inSum), RewriteExpr(p, r, tables, ctes, inSum))
    case Cast(k, y) =>
      if y.Col? then (if k.ToNumeric? && Widens(p, y, tables) then Cast(k, Cast(ToDouble, y)) else x)
      else Cast(k, RewriteExpr(p, y, tables, ctes, inSum))
    case Paren(y) => Paren(RewriteExpr(p, y, tables, ctes, inSum))
    case Not(y) => Not(RewriteExpr(p, y, tables, ctes, inSum))
    case And(l, r) => And(RewriteExpr(p, l, tables, ctes, inSum), RewriteExpr(p, r, tables, ctes, inSum))
    case Or(l, r) => Or(RewriteExpr(p, l, tables, ctes, inSum), RewriteExpr(p, r, tables, ctes, inSum))
    case If(t, l, r) =>
      If(RewriteExpr(p, t, tables, ctes, inSum), RewriteExpr(p, l, tables, ctes, inSum), RewriteExpr(p, r, tables, ctes, inSum))
    case Agg(f, y) => Agg(f, RewriteExpr(p, y, tables, ctes, inSum || f.Sum?))
    case Exists(q) => Exists(Rewrite(p, q, ctes, inSum))
    case InQuery(y, q) => InQuery(RewriteExpr(p, y, tables, ctes, inSum), Rewrite(p, q, ctes, inSum))
    case Scalar(q) => Scalar(Rewrite(p, q, ctes, inSum))
  }

  function Rewrite(p: Pass, q: Query, ctes: set<string>, inSum: bool): Query
    decreases q
  {
    match q
    case Select(from, where, group, having, star, items, distinct, limit) =>
      var tables := Direct(from, ctes);
      Select(RewriteFrom(p, from, tables, ctes, inSum), RewriteExpr(p, where, tables, ctes, inSum),
             RewriteGrouping(p, group, tables, ctes, inSum), RewriteExpr(p, having, tables, ctes, inSum),
             star, RewriteItems(p, items, tables, ctes, inSum), distinct, limit)
    case Union(l, r, all) => Union(Rewrite(p, l, ctes, inSum), Rewrite(p, r, ctes, inSum), all)
    case With(name, def, body) => With(name, Rewrite(p, def, ctes, inSum), Rewrite(p, body, ctes, inSum))
  }

  function RewriteFrom(p: Pass, f: From, tables: map<string, string>, ctes: set<string>, inSum: bool): From
    decreases f
  {
    match f
    case One(s, a) => One(RewriteSource(p, s, ctes, inSum), a)
    case Join(l, k, s, a, on) =>
      Join(RewriteFrom(p, l, tables, ctes, inSum), k, RewriteSource(p, s, ctes, inSum), a,
           RewriteExpr(p, on, tables, ctes, inSum))
  }

  function RewriteSource(p: Pass, s: Source, ctes: set<string>, inSum: bool): Source
    decreases s
  {
    match s
    case Named(_) => s
    case Derived(q) => Derived(Rewrite(p, q, ctes, inSum))
  }

  function RewriteItems(p: Pass, items: seq<Item>, tables: map<string, string>, ctes: set<string>, inSum: bool): seq<Item>
    decreases items
  {
    if items == [] then []
    else [Item(items[0].name, RewriteExpr(p, items[0].e, tables, ctes, inSum))]
         + RewriteItems(p, items[1..], tables, ctes, inSum)
  }

  function RewriteGrouping(p: Pass, g: Grouping, tables: map<string, string>, ctes: set<string>, inSum: bool): Grouping
    decreases g
  {
    match g
    case Whole => g
    case By(keys) => By(RewriteKeys(p, keys, tables, ctes, inSum))
  }

  function RewriteKey(p: Pass, key: GroupItem, tables: map<string, string>, ctes: set<string>, inSum: bool): GroupItem
    decreases key
  {
    match key
    case ByName(_) => key
    case ByExpr(x) => ByExpr(RewriteExpr(p, x, tables, ctes, inSum))
  }

  function RewriteKeys(p: Pass, keys: seq<GroupItem>, tables: map<string, string>, ctes: set<string>, inSum: bool)
    : seq<GroupItem>
    decreases keys
  {
    if keys == [] then []
    else [RewriteKey(p, keys[0], tables, ctes, inSum)] + RewriteKeys(p, keys[1..], tables, ctes, inSum)
  }

  // What the rewrites may change: text for text, and a cast around a column.

  predicate AlikeValues(items: seq<Value>, others: seq<Value>) {
    |items| == |others| && forall i :: 0 <= i < |items| ==> AlikeValue(items[i], others[i])
  }

  predicate AlikeValue(v: Value, w: Value) {
    v == w || (v.Text? && w.Text?)
  }

  predicate Alike(x: Expr, y: Expr)
    decreases x
  {
    match x
    case Lit(v) => y.Lit? && AlikeValue(v, y.v)
    case Col(_, _) => y == x || y == Cast(ToDouble, x)
    case Cmp(op, l, r) => y.Cmp? && y.op == op && Alike(l, y.l) && Alike(r, y.r)
    case InList(z, items) => y.InList? && Alike(z, y.e) && AlikeValues(items, y.items)
    case IsNull(z) => y.IsNull? && Alike(z, y.e)
    case Plus(l, r) => y.Plus? && Alike(l, y.l) && Alike(r, y.r)
    case Cast(k, z) => y.Cast? && y.kind == k && Alike(z, y.e)
    case Paren(z) => y.Paren? && Alike(z, y.e)
    case Not(z) => y.Not? && Alike(z, y.e)
    case And(l, r) => y.And? && Alike(l, y.l) && Alike(r, y.r)
    case Or(l, r) => y.Or? && Alike(l, y.l) && Alike(r, y.r)
    case If(t, l, r) => y.If? && Alike(t, y.test) && Alike(l, y.l) && Alike(r, y.r)
    case Agg(f, z) => y.Agg? && y.f == f && Alike(z, y.e)
    case Exists(q) => y.Exists? && AlikeQueries(q, y.q)
    case InQuery(z, q) => y.InQuery? && Alike(z, y.e) && AlikeQueries(q, y.q)
    case Scalar(q) => y.Scalar? && AlikeQueries(q, y.q)
  }

  predicate AlikeQueries(q: Query, r: Query)
    decreases q
  {
    match q
    case Select(from, where, group, having, star, items, _, _) =>
      r.Select? && AlikeFroms(from, r.from) && Alike(where, r.where) && AlikeGroupings(group, r.group)
      && Alike(having, r.having) && r.star == star && AlikeItems(items, r.items)
    case Union(l, m, _) => r.Union? && AlikeQueries(l, r.l) && AlikeQueries(m, r.r)
    case With(name, def, body) => r.With? && r.name == name && AlikeQueries(def, r.def) && AlikeQueries(body, r.body)
  }

  predicate AlikeFroms(f: From, g: From)
    decreases f
  {
    match f
    case One(s, a) => g.One? && g.alias == a && AlikeSources(s, g.src)
    case Join(l, k, s, a, on) =>
      g.Join? && g.kind == k && g.alias == a && AlikeFroms(l, g.left) && AlikeSources(s, g.src) && Alike(on, g.on)
  }

  predicate AlikeSources(s: Source, t: Source)
    decreases s
  {
    match s
    case Named(_) => t == s
    case Derived(q) => t.Derived? && AlikeQueries(q, t.q)
  }

  predicate AlikeItems(items: seq<Item>, others: seq<Item>)
    decreases items
  {
    if items == [] then others == []
    else others != [] && others[0].name == items[0].name && Alike(items[0].e, others[0].e)
         && AlikeItems(items[1..], others[1..])
  }

  predicate AlikeGroupings(g: Grouping, h: Grouping)
    decreases g
  {
    match g
    case Whole => h.Whole?
    case By(keys) => h.By? && AlikeKeys(keys, h.keys)
  }

  predicate AlikeKey(key: GroupItem, other: GroupItem)
    decreases key
  {
    match key
    case ByName(_) => other == key
    case ByExpr(x) => other.ByExpr? && Alike(x, other.e)
  }

  predicate AlikeKeys(keys: seq<GroupItem>, others: seq<GroupItem>)
    decreases keys
  {
    if keys == [] then others == []
    else others != [] && AlikeKey(keys[0], others[0]) && AlikeKeys(keys[1..], others[1..])
  }

  lemma {:induction false} RewriteAlike(p: Pass, x: Expr, tables: map<string, string>, ctes: set<string>, inSum: bool)
    ensures Alike(x, RewriteExpr(p, x, tables, ctes, inSum))
    decreases x, 1
  {
    match x
    case Lit(_) =>
    case Col(_, _) =>
    case Cmp(_, _, _) => RewriteComparisonAlike(p, x, tables, ctes, inSum);
    case InList(y, _) => RewriteAlike(p, y, tables, ctes, inSum);
    case IsNull(y) => RewriteAlike(p, y, tables, ctes, inSum);
    case Plus(l, r) => RewriteAlike(p, l, tables, ctes, inSum); RewriteAlike(p, r, tables, ctes, inSum);
    case Cast(_, y) => RewriteAlike(p, y, tables, ctes, inSum);
    case Paren(y) => RewriteAlike(p, y, tables, ctes, inSum);
    case Not(y) => RewriteAlike(p, y, tables, ctes, inSum);
    case And(l, r) => RewriteAlike(p, l, tables, ctes, inSum); RewriteAlike(p, r, tables, ctes, inSum);
    case Or(l, r) => RewriteAlike(p, l, tables, ctes, inSum); RewriteAlike(p, r, tables, ctes, inSum);
    case If(t, l, r) =>
      RewriteAlike(p, t, tables, ctes, inSum);
      RewriteAlike(p, l, tables, ctes, inSum);
      RewriteAlike(p, r, tables, ctes, inSum);
    case Agg(f, y) => RewriteAlike(p, y, tables, ctes, inSum || f.Sum?);
    case Exists(q) => RewriteIsAlike(p, q, ctes, inSum);
    case InQuery(y, q) => RewriteAlike(p, y, tables, ctes, inSum); RewriteIsAlike(p, q, ctes, inSum);
    case Scalar(q) => RewriteIsAlike(p, q, ctes, inSum);
  }

  lemma {:induction false} RewriteComparisonAlike(p: Pass, x: Expr, tables: map<string, string>, ctes: set<string>, inSum: bool)
    requires x.Cmp?
    ensures Alike(x, RewriteExpr(p, x, tables, ctes, inSum))
    decreases x, 0
  {
    RewriteAlike(p, x.l, tables, ctes, inSum);
    RewriteAlike(p, x.r, tables, ctes, inSum);
  }

  /** Both rewrites, however the stored values and column types are, change text for text and cast columns only. */
  lemma {:induction false} RewriteIsAlike(p: Pass, q: Query, ctes: set<string>, inSum: bool)
    ensures AlikeQueries(q, Rewrite(p, q, ctes, inSum))
    decreases q, 1
  {
    match q
    case Select(from, where, group, having, _, items, _, _) =>
      var tables := Direct(from, ctes);
      RewriteFromAlike(p, from, tables, ctes, inSum);
      RewriteAlike(p, where, tables, ctes, inSum);
      RewriteAlike(p, having, tables, ctes, inSum);
      RewriteItemsAlike(p, items, tables, ctes, inSum);
      if group.By? { RewriteKeysAlike(p, group.keys, tables, ctes, inSum); }
    case Union(l, r, _) => RewriteIsAlike(p, l, ctes, inSum); RewriteIsAlike(p, r, ctes, inSum);
    case With(_, def, body) => RewriteIsAlike(p, def, ctes, inSum); RewriteIsAlike(p, body, ctes, inSum);
  }

  lemma {:induction false} RewriteFromAlike(p: Pass, f: From, tables: map<string, string>, ctes: set<string>, inSum: bool)
    ensures AlikeFroms(f, RewriteFrom(p, f, tables, ctes, inSum))
    decreases f
  {
    if f.src.Derived? { RewriteIsAlike(p, f.src.q, ctes, inSum); }
    if f.Join? {
      RewriteFromAlike(p, f.left, tables, ctes, inSum);
      RewriteAlike(p, f.on, tables, ctes, inSum);
    }
  }

  lemma {:induction false} RewriteItemsAlike(p: Pass, items: seq<Item>, tables: map<string, string>, ctes: set<string>, inSum: bool)
    ensures AlikeItems(items, RewriteItems(p, items, tables, ctes, inSum))
    decreases items
  {
    if items != [] {
      RewriteAlike(p, items[0].e, tables, ctes, inSum);
      RewriteItemsAlike(p, items[1..], tables, ctes, inSum);
    }
  }

  lemma {:induction false} RewriteKeysAlike(p: Pass, keys: seq<GroupItem>, tables: map<string, string>, ctes: set<string>, inSum: bool)
    ensures AlikeKeys(keys, RewriteKeys(p, keys, tables, ctes, inSum))
    decreases keys
  {
    if keys != [] {
      RewriteKeyAlike(p, keys[0], tables, ctes, inSum);
      RewriteKeysAlike(p, keys[1..], tables, ctes, inSum);
    }
  }

  lemma {:induction false} RewriteKeyAlike(p: Pass, key: GroupItem, tables: map<string, string>, ctes: set<string>, inSum: bool)
    ensures AlikeKey(key, RewriteKey(p, key, tables, ctes, inSum))
    decreases key
  {
    match key
    case ByExpr(x) => RewriteAlike(p, x, tables, ctes, inSum);
    case ByName(_) =>
  }

  // Alike queries show and trace the same columns.

  predicate AlikeScopes(s: Scopes, t: Scopes) {
    match s
    case Top => t.Top?
    case Bind(n, def, outer) => t.Bind? && t.name == n && AlikeQueries(def, t.def) && AlikeScopes(outer, t.outer)
  }

  lemma {:induction false} NamesAlike(items: seq<Item>, others: seq<Item>, name: string)
    requires AlikeItems(items, others)
    ensures |others| == |items| && RowKeys.Names(others) == RowKeys.Names(items)
    ensures FirstNamed(others, name) == FirstNamed(items, name)
    ensures var i := FirstNamed(items, name); i.Some? ==> Alike(items[i.value].e, others[i.value].e)
  {
    if items != [] {
      NamesAlike(items[1..], others[1..], name);
      NamesCons(items);
      NamesCons(others);
    }
  }

  lemma NamesCons(items: seq<Item>)
    requires items != []
    ensures RowKeys.Names(items) == {items[0].name} + RowKeys.Names(items[1..])
  {
    assert forall x :: x in items <==> x == items[0] || x in items[1..];
  }

  lemma {:induction false} LookupAlike(s: Scopes, t: Scopes, name: string)
    requires AlikeScopes(s, t)
    ensures Lookup(s, name).Some? == Lookup(t, name).Some?
    ensures Lookup(s, name).Some? ==>
      AlikeQueries(Lookup(s, name).value.0, Lookup(t, name).value.0) && AlikeScopes(Lookup(s, name).value.1, Lookup(t, name).value.1)
  {
    if s.Bind? && s.name != name { LookupAlike(s.outer, t.outer, name); }
  }

  lemma {:induction false} OutputAlike(q: Query, r: Query, s: Scopes, t: Scopes, catalog: Catalog)
    requires AlikeQueries(q, r) && AlikeScopes(s, t)
    ensures OutputColumns(r, t, catalog) == OutputColumns(q, s, catalog)
    decreases Size(q) + Depth(s)
  {
    match q
    case Select(from, _, _, _, star, items, _, _) =>
      NamesAlike(items, r.items, "");
      FromAlike(from, r.from, s, t, catalog);
    case Union(l, _, _) =>
      if l.Select? {
        NamesAlike(l.items, r.l.items, "");
        CtesAlike(s, t, catalog);
      }
    case With(name, def, body) => OutputAlike(body, r.body, Bind(name, def, s), Bind(name, r.def, t), catalog);
  }

  lemma {:induction false} FromAlike(f: From, g: From, s: Scopes, t: Scopes, catalog: Catalog)
    requires AlikeFroms(f, g) && AlikeScopes(s, t)
    ensures FromColumns(g, t, catalog) == FromColumns(f, s, catalog)
    decreases FromSize(f) + Depth(s)
  {
    SourceAlike(f.src, g.src, s, t, catalog);
    if f.Join? { FromAlike(f.left, g.left, s, t, catalog); }
  }

  lemma {:induction false} SourceAlike(a: Source, b: Source, s: Scopes, t: Scopes, catalog: Catalog)
    requires AlikeSources(a, b) && AlikeScopes(s, t)
    ensures SourceColumns(b, t, catalog) == SourceColumns(a, s, catalog)
    decreases SourceSize(a) + Depth(s)
  {
    match a
    case Derived(q) => OutputAlike(q, b.q, s, t, catalog);
    case Named(n) =>
      LookupAlike(s, t, n);
      var cte := Lookup(s, n);
      if cte.Some? { OutputAlike(cte.value.0, Lookup(t, n).value.0, cte.value.1, Lookup(t, n).value.1, catalog); }
  }

  lemma {:induction false} CtesAlike(s: Scopes, t: Scopes, catalog: Catalog)
    requires AlikeScopes(s, t)
    ensures CteColumns(t, catalog) == CteColumns(s, catalog)
    decreases Depth(s)
  {
    if s.Bind? {
      OutputAlike(s.def, t.def, s.outer, t.outer, catalog);
      CtesAlike(s.outer, t.outer, catalog);
    }
  }

  lemma {:induction false} OwnersAlike(f: From, g: From, name: string, s: Scopes, t: Scopes, catalog: Catalog)
    requires AlikeFroms(f, g) && AlikeScopes(s, t)
    ensures Owners(g, name, t, catalog) == Owners(f, name, s, catalog)
  {
    SourceAlike(f.src, g.src, s, t, catalog);
    if f.Join? { OwnersAlike(f.left, g.left, name, s, t, catalog); }
  }

  /** The column under casts and parentheses is the same, whatever was cast. */
  lemma {:induction false} UnwrappedAlike(x: Expr, y: Expr)
    requires Alike(x, y)
    ensures Unwrapped(x).Col? == Unwrapped(y).Col? && (Unwrapped(x).Col? ==> Unwrapped(y) == Unwrapped(x))
  {
    match x
    case Cast(_, z) => UnwrappedAlike(z, y.e);
    case Paren(z) => UnwrappedAlike(z, y.e);
    case _ =>
  }

  lemma {:induction false} TraceAlike(x: Expr, y: Expr, f: From, g: From, s: Scopes, t: Scopes, catalog: Catalog, inner: bool)
    requires Alike(x, y) && AlikeFroms(f, g) && AlikeScopes(s, t)
    ensures Trace(y, g, t, catalog, inner) == Trace(x, f, s, catalog, inner)
    decreases FromSize(f) + Depth(s), 1
  {
    UnwrappedAlike(x, y);
    if Unwrapped(x).Col? { TraceAliasAlike(Unwrapped(x).alias, Unwrapped(x).name, f, g, s, t, catalog, inner); }
  }

  lemma {:induction false} TraceAliasAlike(alias: string, name: string, f: From, g: From, s: Scopes, t: Scopes,
                                           catalog: Catalog, inner: bool)
    requires AlikeFroms(f, g) && AlikeScopes(s, t)
    ensures TraceAlias(alias, name, g, t, catalog, inner) == TraceAlias(alias, name, f, s, catalog, inner)
    decreases FromSize(f) + Depth(s), 0
  {
    assert SourceSize(f.src) < FromSize(f);
    if f.alias == alias {
      match f.src
      case Derived(q) => TraceOutputAlike(q, g.src.q, name, s, t, catalog);
      case Named(n) =>
        LookupAlike(s, t, n);
        var cte := Lookup(s, n);
        if cte.Some? { TraceOutputAlike(cte.value.0, Lookup(t, n).value.0, name, cte.value.1, Lookup(t, n).value.1, catalog); }
    } else if f.Join? {
      TraceAliasAlike(alias, name, f.left, g.left, s, t, catalog, inner);
    }
  }

  lemma {:induction false} TraceOutputAlike(q: Query, r: Query, name: string, s: Scopes, t: Scopes, catalog: Catalog)
    requires AlikeQueries(q, r) && AlikeScopes(s, t)
    ensures TraceOutput(r, name, t, catalog) == TraceOutput(q, name, s, catalog)
    decreases Size(q) + Depth(s)
  {
    match q
    case Union(_, _, _) =>
    case With(n, def, body) => TraceOutputAlike(body, r.body, name, Bind(n, def, s), Bind(n, r.def, t), catalog);
    case Select(from, _, _, _, star, items, _, _) =>
      NamesAlike(items, r.items, name);
      var i := FirstNamed(items, name);
      if i.Some? {
        TraceAlike(items[i.value].e, r.items[i.value].e, from, r.from, s, t, catalog, true);
      } else if star {
        OwnersAlike(from, r.from, name, s, t, catalog);
        if |Owners(from, name, s, catalog)| == 1 {
          TraceAliasAlike(Owners(from, name, s, catalog)[0], name, from, r.from, s, t, catalog, true);
        }
      }
  }

  // The verdict of the gates.

  /** The catalog, the request's authority, and what the join check consults. */
  datatype Rules = Rules(catalog: Catalog, allowed: set<string>, known: JoinPolicy.Relationships,
                         keyOf: Column -> Column, safe: set<Aggregate>)

  /** The FROM lists a column can be resolved in, innermost first. */
  datatype Around = Outside | Within(from: From, scopes: Scopes, outer: Around)

  function RelationAt(alias: string, around: Around): Option<(Source, Scopes)> {
    match around
    case Outside => None
    case Within(from, scopes, outer) =>
      var source := SourceOf(from, alias);
      if source.Some? then Some((source.value, scopes)) else RelationAt(alias, outer)
  }

  predicate ColumnKnown(alias: string, name: string, around: Around, catalog: Catalog) {
    var relation := RelationAt(alias, around);
    relation.Some? && name in SourceColumns(relation.value.0, relation.value.1, catalog)
  }

  /** The table column an expression reads directly, in this select or an enclosing one. */
  function JoinColumn(x: Expr, around: Around, catalog: Catalog): Option<Column> {
    var column := Unwrapped(x);
    if !column.Col? then None
    else
      var relation := RelationAt(column.alias, around);
      if relation.None? || !relation.value.0.Named? || Lookup(relation.value.1, relation.value.0.table).Some? then None
      else if TableHas(catalog, relation.value.0.table, column.name) then Some((relation.value.0.table, column.name))
      else None
  }

  /** An equality of a select: what its sides read, whether through a derived source, and whether it is ANDed in. */
  datatype Pair = Pair(left: Option<Column>, right: Option<Column>, traced: bool, conjunct: bool)

  function PairOf(l: Expr, r: Expr, conjunct: bool, around: Around, catalog: Catalog): Pair
    requires around.Within?
  {
    var left, right := JoinColumn(l, around, catalog), JoinColumn(r, around, catalog);
    Pair(if left.Some? then left else Trace(l, around.from, around.scopes, catalog, false),
         if right.Some? then right else Trace(r, around.from, around.scopes, catalog, false),
         left.None? || right.None?, conjunct)
  }

  /** The equalities of an expression, those of its subqueries left to them. */
  function Pairs(x: Expr, conjunct: bool, around: Around, catalog: Catalog): seq<Pair>
    requires around.Within?
    decreases x
  {
    match x
    case Cmp(op, l, r) =>
      (if op.Eq? then [PairOf(l, r, conjunct, around, catalog)] else [])
      + Pairs(l, false, around, catalog) + Pairs(r, false, around, catalog)
    case And(l, r) => Pairs(l, conjunct, around, catalog) + Pairs(r, conjunct, around, catalog)
    case Paren(y) => Pairs(y, conjunct, around, catalog)
    case InList(y, _) => Pairs(y, false, around, catalog)
    case IsNull(y) => Pairs(y, false, around, catalog)
    case Plus(l, r) => Pairs(l, false, around, catalog) + Pairs(r, false, around, catalog)
    case Cast(_, y) => Pairs(y, false, around, catalog)
    case Not(y) => Pairs(y, false, around, catalog)
    case Or(l, r) => Pairs(l, false, around, catalog) + Pairs(r, false, around, catalog)
    case If(t, l, r) => Pairs(t, false, around, catalog) + Pairs(l, false, around, catalog) + Pairs(r, false, around, catalog)
    case Agg(_, y) => Pairs(y, false, around, catalog)
    case InQuery(y, _) => Pairs(y, false, around, catalog)
    case _ => []
  }

  function OnPairs(f: From, around: Around, catalog: Catalog): seq<Pair>
    requires around.Within?
  {
    if f.One? then [] else OnPairs(f.left, around, catalog) + Pairs(f.on, true, around, catalog)
  }

  function ItemPairs(items: seq<Item>, around: Around, catalog: Catalog): seq<Pair>
    requires around.Within?
  {
    if items == [] then [] else Pairs(items[0].e, false, around, catalog) + ItemPairs(items[1..], around, catalog)
  }

  function KeyPairs(keys: seq<GroupItem>, around: Around, catalog: Catalog): seq<Pair>
    requires around.Within?
  {
    if keys == [] then []
    else (if keys[0].ByExpr? then Pairs(keys[0].e, false, around, catalog) else []) + KeyPairs(keys[1..], around, catalog)
  }

  function SelectPairs(q: Query, around: Around, catalog: Catalog): seq<Pair>
    requires q.Select? && around.Within?
  {
    OnPairs(q.from, around, catalog) + Pairs(q.where, true, around, catalog) + Pairs(q.having, false, around, catalog)
    + ItemPairs(q.items, around, catalog) + (if q.group.By? then KeyPairs(q.group.keys, around, catalog) else [])
  }

  predicate Compares(p: Pair) {
    p.left.Some? && p.right.Some? && p.left.value.0 != p.right.value.0
  }

  /** The table pairs that authorized equalities ANDed into the select join. */
  function Authorized(pairs: seq<Pair>, known: JoinPolicy.Relationships): set<JoinPolicy.Edge> {
    set i | 0 <= i < |pairs| && Compares(pairs[i]) && pairs[i].conjunct
            && JoinPolicy.Related(known, pairs[i].left.value, pairs[i].right.value) ::
      {pairs[i].left.value.0, pairs[i].right.value.0}
  }

  /** An equality between two tables follows a relationship, names one key twice, or narrows an authorized join. */
  ghost predicate PairAdmitted(p: Pair, pairs: seq<Pair>, rules: Rules) {
    Compares(p) ==>
      || JoinPolicy.Related(rules.known, p.left.value, p.right.value)
      || (p.traced && rules.keyOf(p.left.value) == rules.keyOf(p.right.value))
      || (p.conjunct && JoinPolicy.Reaches(Authorized(pairs, rules.known), p.left.value.0, p.right.value.0))
  }

  function CteNames(scopes: Scopes): set<string> {
    match scopes
    case Top => {}
    case Bind(n, _, outer) => {n} + CteNames(outer)
  }

  ghost predicate JoinsAdmitted(q: Query, around: Around, rules: Rules)
    requires q.Select? && around.Within?
  {
    var pairs := SelectPairs(q, around, rules.catalog);
    var relations := JoinPolicy.RelationsOf(q.from, CteNames(around.scopes));
    var links := JoinPolicy.Links(q, relations, rules.known);
    && (forall i :: 0 <= i < |pairs| ==> PairAdmitted(pairs[i], pairs, rules))
    && (forall s, t :: s in JoinPolicy.Tables(relations) && t in JoinPolicy.Tables(relations) ==> JoinPolicy.Reaches(links, s, t))
  }

  /** Tables in the catalog and the authority, columns known, functions safe, joins authorized: at every level. */
  ghost predicate Admitted(q: Query, around: Around, scopes: Scopes, rules: Rules)
    decreases q
  {
    match q
    case Select(from, where, group, having, _, items, _, _) =>
      var here := Within(from, scopes, around);
      && FromAdmitted(from, here, scopes, rules) && ExprAdmitted(where, here, scopes, rules)
      && GroupingAdmitted(group, here, scopes, rules) && ExprAdmitted(having, here, scopes, rules)
      && ItemsAdmitted(items, here, scopes, rules) && JoinsAdmitted(q, here, rules)
    case Union(l, r, _) => Admitted(l, around, scopes, rules) && Admitted(r, around, scopes, rules)
    case With(name, def, body) => Admitted(def, around, scopes, rules) && Admitted(body, around, Bind(name, def, scopes), rules)
  }

  ghost predicate FromAdmitted(f: From, here: Around, scopes: Scopes, rules: Rules)
    decreases f
  {
    match f
    case One(s, _) => SourceAdmitted(s, here, scopes, rules)
    case Join(l, _, s, _, on) =>
      FromAdmitted(l, here, scopes, rules) && SourceAdmitted(s, here, scopes, rules) && ExprAdmitted(on, here, scopes, rules)
  }

  ghost predicate SourceAdmitted(s: Source, here: Around, scopes: Scopes, rules: Rules)
    decreases s
  {
    match s
    case Named(t) => Lookup(scopes, t).Some? || (t in rules.catalog && t in rules.allowed)
    case Derived(q) => Admitted(q, here, scopes, rules)
  }

  ghost predicate ExprAdmitted(x: Expr, here: Around, scopes: Scopes, rules: Rules)
    decreases x
  {
    match x
    case Lit(_) => true
    case Col(a, n) => ColumnKnown(a, n, here, rules.catalog)
    case Cmp(_, l, r) => ExprAdmitted(l, here, scopes, rules) && ExprAdmitted(r, here, scopes, rules)
    case InList(y, _) => ExprAdmitted(y, here, scopes, rules)
    case IsNull(y) => ExprAdmitted(y, here, scopes, rules)
    case Plus(l, r) => ExprAdmitted(l, here, scopes, rules) && ExprAdmitted(r, here, scopes, rules)
    case Cast(_, y) => ExprAdmitted(y, here, scopes, rules)
    case Paren(y) => ExprAdmitted(y, here, scopes, rules)
    case Not(y) => ExprAdmitted(y, here, scopes, rules)
    case And(l, r) => ExprAdmitted(l, here, scopes, rules) && ExprAdmitted(r, here, scopes, rules)
    case Or(l, r) => ExprAdmitted(l, here, scopes, rules) && ExprAdmitted(r, here, scopes, rules)
    case If(t, l, r) =>
      ExprAdmitted(t, here, scopes, rules) && ExprAdmitted(l, here, scopes, rules) && ExprAdmitted(r, here, scopes, rules)
    case Agg(f, y) => f in rules.safe && ExprAdmitted(y, here, scopes, rules)
    case Exists(q) => Admitted(q, here, scopes, rules)
    case InQuery(y, q) => ExprAdmitted(y, here, scopes, rules) && Admitted(q, here, scopes, rules)
    case Scalar(q) => Admitted(q, here, scopes, rules)
  }

  ghost predicate ItemsAdmitted(items: seq<Item>, here: Around, scopes: Scopes, rules: Rules)
    decreases items
  {
    items != [] ==> ExprAdmitted(items[0].e, here, scopes, rules) && ItemsAdmitted(items[1..], here, scopes, rules)
  }

  ghost predicate GroupingAdmitted(g: Grouping, here: Around, scopes: Scopes, rules: Rules)
    decreases g
  {
    match g
    case Whole => true
    case By(keys) => KeysAdmitted(keys, here, scopes, rules)
  }

  ghost predicate KeyAdmitted(key: GroupItem, here: Around, scopes: Scopes, rules: Rules)
    decreases key
  {
    match key
    case ByName(_) => true
    case ByExpr(x) => ExprAdmitted(x, here, scopes, rules)
  }

  ghost predicate KeysAdmitted(keys: seq<GroupItem>, here: Around, scopes: Scopes, rules: Rules)
    decreases keys
  {
    keys != [] ==> KeyAdmitted(keys[0], here, scopes, rules) && KeysAdmitted(keys[1..], here, scopes, rules)
  }

  // Alike queries get the same verdict.

  predicate AlikeAround(a: Around, b: Around) {
    match a
    case Outside => b.Outside?
    case Within(from, scopes, outer) =>
      b.Within? && AlikeFroms(from, b.from) && AlikeScopes(scopes, b.scopes) && AlikeAround(outer, b.outer)
  }

  lemma {:induction false} SourceOfAlike(f: From, g: From, alias: string)
    requires AlikeFroms(f, g)
    ensures SourceOf(f, alias).Some? == SourceOf(g, alias).Some?
    ensures SourceOf(f, alias).Some? ==> AlikeSources(SourceOf(f, alias).value, SourceOf(g, alias).value)
  {
    if f.Join? && f.alias != alias { SourceOfAlike(f.left, g.left, alias); }
  }

  lemma {:induction false} RelationAlike(alias: string, a: Around, b: Around)
    requires AlikeAround(a, b)
    ensures RelationAt(alias, a).Some? == RelationAt(alias, b).Some?
    ensures RelationAt(alias, a).Some? ==>
      var (s, scopes) := RelationAt(alias, a).value;
      AlikeSources(s, RelationAt(alias, b).value.0) && AlikeScopes(scopes, RelationAt(alias, b).value.1)
  {
    if a.Within? {
      SourceOfAlike(a.from, b.from, alias);
      RelationAlike(alias, a.outer, b.outer);
    }
  }

  lemma KnownAlike(alias: string, name: string, a: Around, b: Around, catalog: Catalog)
    requires AlikeAround(a, b)
    ensures ColumnKnown(alias, name, a, catalog) == ColumnKnown(alias, name, b, catalog)
  {
    RelationAlike(alias, a, b);
    var relation := RelationAt(alias, a);
    if relation.Some? {
      SourceAlike(relation.value.0, RelationAt(alias, b).value.0, relation.value.1, RelationAt(alias, b).value.1, catalog);
    }
  }

  lemma JoinColumnAlike(x: Expr, y: Expr, a: Around, b: Around, catalog: Catalog)
    requires Alike(x, y) && AlikeAround(a, b)
    ensures JoinColumn(y, b, catalog) == JoinColumn(x, a, catalog)
  {
    UnwrappedAlike(x, y);
    var column := Unwrapped(x);
    if column.Col? {
      RelationAlike(column.alias, a, b);
      var relation := RelationAt(column.alias, a);
      if relation.Some? && relation.value.0.Named? {
        LookupAlike(relation.value.1, RelationAt(column.alias, b).value.1, relation.value.0.table);
      }
    }
  }

  lemma PairAlike(l: Expr, r: Expr, l': Expr, r': Expr, conjunct: bool, a: Around, b: Around, catalog: Catalog)
    requires Alike(l, l') && Alike(r, r') && AlikeAround(a, b) && a.Within?
    ensures PairOf(l', r', conjunct, b, catalog) == PairOf(l, r, conjunct, a, catalog)
  {
    JoinColumnAlike(l, l', a, b, catalog);
    JoinColumnAlike(r, r', a, b, catalog);
    TraceAlike(l, l', a.from, b.from, a.scopes, b.scopes, catalog, false);
    TraceAlike(r, r', a.from, b.from, a.scopes, b.scopes, catalog, false);
  }

  lemma {:induction false} PairsAlike(x: Expr, y: Expr, conjunct: bool, a: Around, b: Around, catalog: Catalog)
    requires Alike(x, y) && AlikeAround(a, b) && a.Within?
    ensures Pairs(y, conjunct, b, catalog) == Pairs(x, conjunct, a, catalog)
    decreases x, 1
  {
    match x
    case Lit(_) =>
    case Col(_, _) =>
    case Cmp(_, _, _) => ComparisonAlike(x, y, conjunct, a, b, catalog);
    case And(l, r) => PairsAlike(l, y.l, conjunct, a, b, catalog); PairsAlike(r, y.r, conjunct, a, b, catalog);
    case Paren(z) => PairsAlike(z, y.e, conjunct, a, b, catalog);
    case Plus(l, r) => PairsAlike(l, y.l, false, a, b, catalog); PairsAlike(r, y.r, false, a, b, catalog);
    case Or(l, r) => PairsAlike(l, y.l, false, a, b, catalog); PairsAlike(r, y.r, false, a, b, catalog);
    case If(t, l, r) =>
      PairsAlike(t, y.test, false, a, b, catalog);
      PairsAlike(l, y.l, false, a, b, catalog);
      PairsAlike(r, y.r, false, a, b, catalog);
    case Exists(_) =>
    case Scalar(_) =>
    case _ => OperandAlike(x, y, conjunct, a, b, catalog);
  }

  lemma {:induction false} OperandAlike(x: Expr, y: Expr, conjunct: bool, a: Around, b: Around, catalog: Catalog)
    requires x.InList? || x.IsNull? || x.Cast? || x.Not? || x.Agg? || x.InQuery?
    requires Alike(x, y) && AlikeAround(a, b) && a.Within?
    ensures Pairs(y, conjunct, b, catalog) == Pairs(x, conjunct, a, catalog)
    decreases x, 0
  {
    PairsAlike(x.e, y.e, false, a, b, catalog);
  }

  lemma {:induction false} ComparisonAlike(x: Expr, y: Expr, conjunct: bool, a: Around, b: Around, catalog: Catalog)
    requires x.Cmp? && Alike(x, y) && AlikeAround(a, b) && a.Within?
    ensures Pairs(y, conjunct, b, catalog) == Pairs(x, conjunct, a, catalog)
    decreases x, 0
  {
    PairAlike(x.l, x.r, y.l, y.r, conjunct, a, b, catalog);
    PairsAlike(x.l, y.l, false, a, b, catalog);
    PairsAlike(x.r, y.r, false, a, b, catalog);
  }

  lemma {:induction false} OnPairsAlike(f: From, g: From, a: Around, b: Around, catalog: Catalog)
    requires AlikeFroms(f, g) && AlikeAround(a, b) && a.Within?
    ensures OnPairs(g, b, catalog) == OnPairs(f, a, catalog)
  {
    if f.Join? {
      OnPairsAlike(f.left, g.left, a, b, catalog);
      PairsAlike(f.on, g.on, true, a, b, catalog);
    }
  }

  lemma {:induction false} ItemPairsAlike(items: seq<Item>, others: seq<Item>, a: Around, b: Around, catalog: Catalog)
    requires AlikeItems(items, others) && AlikeAround(a, b) && a.Within?
    ensures ItemPairs(others, b, catalog) == ItemPairs(items, a, catalog)
  {
    if items != [] {
      PairsAlike(items[0].e, others[0].e, false, a, b, catalog);
      ItemPairsAlike(items[1..], others[1..], a, b, catalog);
    }
  }

  lemma {:induction false} KeyPairsAlike(keys: seq<GroupItem>, others: seq<GroupItem>, a: Around, b: Around, catalog: Catalog)
    requires AlikeKeys(keys, others) && AlikeAround(a, b) && a.Within?
    ensures KeyPairs(others, b, catalog) == KeyPairs(keys, a, catalog)
  {
    if keys != [] {
      if keys[0].ByExpr? { PairsAlike(keys[0].e, others[0].e, false, a, b, catalog); }
      KeyPairsAlike(keys[1..], others[1..], a, b, catalog);
    }
  }

  lemma SelectPairsAlike(q: Query, r: Query, a: Around, b: Around, catalog: Catalog)
    requires q.Select? && AlikeQueries(q, r) && AlikeAround(a, b) && a.Within?
    ensures SelectPairs(r, b, catalog) == SelectPairs(q, a, catalog)
  {
    OnPairsAlike(q.from, r.from, a, b, catalog);
    PairsAlike(q.where, r.where, true, a, b, catalog);
    PairsAlike(q.having, r.having, false, a, b, catalog);
    ItemPairsAlike(q.items, r.items, a, b, catalog);
    if q.group.By? { KeyPairsAlike(q.group.keys, r.group.keys, a, b, catalog); }
  }

  predicate AlikeAll(xs: seq<Expr>, ys: seq<Expr>) {
    |xs| == |ys| && forall i :: 0 <= i < |xs| ==> Alike(xs[i], ys[i])
  }

  lemma {:induction false} TermsAlike(x: Expr, y: Expr)
    requires Alike(x, y)
    ensures AlikeAll(JoinPolicy.Terms(x), JoinPolicy.Terms(y)) && AlikeAll(JoinPolicy.Disjuncts(x), JoinPolicy.Disjuncts(y))
    decreases x
  {
    match x
    case Paren(z) => TermsAlike(z, y.e);
    case And(l, r) => TermsAlike(l, y.l); TermsAlike(r, y.r);
    case Or(l, r) => TermsAlike(l, y.l); TermsAlike(r, y.r);
    case _ =>
  }

  lemma {:induction false} OnTermsAlike(f: From, g: From)
    requires AlikeFroms(f, g)
    ensures AlikeAll(JoinPolicy.OnTerms(f), JoinPolicy.OnTerms(g))
  {
    if f.Join? {
      OnTermsAlike(f.left, g.left);
      TermsAlike(f.on, g.on);
    }
  }

  lemma {:induction false} RelationsAlike(f: From, g: From, ctes: set<string>)
    requires AlikeFroms(f, g)
    ensures JoinPolicy.RelationsOf(g, ctes) == JoinPolicy.RelationsOf(f, ctes)
  {
    if f.Join? { RelationsAlike(f.left, g.left, ctes); }
  }

  lemma LinkAlike(relations: JoinPolicy.Relations, known: JoinPolicy.Relationships, x: Expr, y: Expr)
    requires Alike(x, y)
    ensures JoinPolicy.LinkOf(relations, known, y) == JoinPolicy.LinkOf(relations, known, x)
  {
    TermsAlike(x, y);
    var xs, ys := JoinPolicy.Disjuncts(x), JoinPolicy.Disjuncts(y);
    forall i | 0 <= i < |xs|
      ensures JoinPolicy.EqualityLink(relations, known, ys[i]) == JoinPolicy.EqualityLink(relations, known, xs[i])
    {
      EqualityAlike(relations, known, xs[i], ys[i]);
    }
  }

  lemma EqualityAlike(relations: JoinPolicy.Relations, known: JoinPolicy.Relationships, x: Expr, y: Expr)
    requires Alike(x, y)
    ensures JoinPolicy.EqualityLink(relations, known, y) == JoinPolicy.EqualityLink(relations, known, x)
  {
    if x.Cmp? {
      UnwrappedAlike(x.l, y.l);
      UnwrappedAlike(x.r, y.r);
    }
  }

  lemma LinksAlike(q: Query, r: Query, relations: JoinPolicy.Relations, known: JoinPolicy.Relationships)
    requires q.Select? && AlikeQueries(q, r)
    ensures JoinPolicy.Links(r, relations, known) == JoinPolicy.Links(q, relations, known)
  {
    OnTermsAlike(q.from, r.from);
    TermsAlike(q.where, r.where);
    var xs, ys := JoinPolicy.AllTerms(q), JoinPolicy.AllTerms(r);
    forall i | 0 <= i < |xs|
      ensures JoinPolicy.LinkOf(relations, known, ys[i]) == JoinPolicy.LinkOf(relations, known, xs[i])
    {
      LinkAlike(relations, known, xs[i], ys[i]);
    }
  }

  lemma {:induction false} CteNamesAlike(s: Scopes, t: Scopes)
    requires AlikeScopes(s, t)
    ensures CteNames(t) == CteNames(s)
  {
    if s.Bind? { CteNamesAlike(s.outer, t.outer); }
  }

  lemma JoinsAlike(q: Query, r: Query, a: Around, b: Around, rules: Rules)
    requires q.Select? && AlikeQueries(q, r) && AlikeAround(a, b) && a.Within?
    ensures JoinsAdmitted(r, b, rules) == JoinsAdmitted(q, a, rules)
  {
    SelectPairsAlike(q, r, a, b, rules.catalog);
    CteNamesAlike(a.scopes, b.scopes);
    RelationsAlike(q.from, r.from, CteNames(a.scopes));
    LinksAlike(q, r, JoinPolicy.RelationsOf(q.from, CteNames(a.scopes)), rules.known);
  }

  lemma {:induction false} AdmittedAlike(q: Query, r: Query, a: Around, b: Around, s: Scopes, t: Scopes, rules: Rules)
    requires AlikeQueries(q, r) && AlikeAround(a, b) && AlikeScopes(s, t)
    ensures Admitted(r, b, t, rules) == Admitted(q, a, s, rules)
    decreases q
  {
    match q
    case Select(from, where, group, having, _, items, _, _) =>
      var here, there := Within(from, s, a), Within(r.from, t, b);
      FromAdmittedAlike(from, r.from, here, there, s, t, rules);
      ExprAdmittedAlike(where, r.where, here, there, s, t, rules);
      ExprAdmittedAlike(having, r.having, here, there, s, t, rules);
      ItemsAdmittedAlike(items, r.items, here, there, s, t, rules);
      if group.By? { KeysAdmittedAlike(group.keys, r.group.keys, here, there, s, t, rules); }
      JoinsAlike(q, r, here, there, rules);
    case Union(l, m, _) => AdmittedAlike(l, r.l, a, b, s, t, rules); AdmittedAlike(m, r.r, a, b, s, t, rules);
    case With(name, def, body) =>
      AdmittedAlike(def, r.def, a, b, s, t, rules);
      AdmittedAlike(body, r.body, a, b, Bind(name, def, s), Bind(name, r.def, t), rules);
  }

  lemma {:induction false} FromAdmittedAlike(f: From, g: From, a: Around, b: Around, s: Scopes, t: Scopes, rules: Rules)
    requires AlikeFroms(f, g) && AlikeAround(a, b) && AlikeScopes(s, t)
    ensures FromAdmitted(g, b, t, rules) == FromAdmitted(f, a, s, rules)
    decreases f
  {
    SourceAdmittedAlike(f.src, g.src, a, b, s, t, rules);
    if f.Join? {
      FromAdmittedAlike(f.left, g.left, a, b, s, t, rules);
      ExprAdmittedAlike(f.on, g.on, a, b, s, t, rules);
    }
  }

  lemma {:induction false} SourceAdmittedAlike(x: Source, y: Source, a: Around, b: Around, s: Scopes, t: Scopes, rules: Rules)
    requires AlikeSources(x, y) && AlikeAround(a, b) && AlikeScopes(s, t)
    ensures SourceAdmitted(y, b, t, rules) == SourceAdmitted(x, a, s, rules)
    decreases x
  {
    match x
    case Named(n) => LookupAlike(s, t, n);
    case Derived(q) => AdmittedAlike(q, y.q, a, b, s, t, rules);
  }

  lemma {:induction false} ExprAdmittedAlike(x: Expr, y: Expr, a: Around, b: Around, s: Scopes, t: Scopes, rules: Rules)
    requires Alike(x, y) && AlikeAround(a, b) && AlikeScopes(s, t)
    ensures ExprAdmitted(y, b, t, rules) == ExprAdmitted(x, a, s, rules)
    decreases x, 1
  {
    match x
    case Lit(_) =>
    case Col(_, _) => ColAdmittedAlike(x, y, a, b, s, t, rules);
    case If(u, l, r) =>
      ExprAdmittedAlike(u, y.test, a, b, s, t, rules);
      ExprAdmittedAlike(l, y.l, a, b, s, t, rules);
      ExprAdmittedAlike(r, y.r, a, b, s, t, rules);
    case Cmp(_, _, _) => BinaryAdmittedAlike(x, y, a, b, s, t, rules);
    case Plus(_, _) => BinaryAdmittedAlike(x, y, a, b, s, t, rules);
    case And(_, _) => BinaryAdmittedAlike(x, y, a, b, s, t, rules);
    case Or(_, _) => BinaryAdmittedAlike(x, y, a, b, s, t, rules);
    case Exists(_) => SubqueryAdmittedAlike(x, y, a, b, s, t, rules);
    case InQuery(_, _) => SubqueryAdmittedAlike(x, y, a, b, s, t, rules);
    case Scalar(_) => SubqueryAdmittedAlike(x, y, a, b, s, t, rules);
    case _ => UnaryAdmittedAlike(x, y, a, b, s, t, rules);
  }

  lemma {:induction false} BinaryAdmittedAlike(x: Expr, y: Expr, a: Around, b: Around, s: Scopes, t: Scopes, rules: Rules)
    requires Alike(x, y) && AlikeAround(a, b) && AlikeScopes(s, t)
    requires x.Cmp? || x.Plus? || x.And? || x.Or?
    ensures ExprAdmitted(y, b, t, rules) == ExprAdmitted(x, a, s, rules)
    decreases x, 0
  {
    ExprAdmittedAlike(x.l, y.l, a, b, s, t, rules);
    ExprAdmittedAlike(x.r, y.r, a, b, s, t, rules);
  }

  lemma {:induction false} UnaryAdmittedAlike(x: Expr, y: Expr, a: Around, b: Around, s: Scopes, t: Scopes, rules: Rules)
    requires Alike(x, y) && AlikeAround(a, b) && AlikeScopes(s, t)
    requires x.InList? || x.IsNull? || x.Cast? || x.Paren? || x.Not? || x.Agg?
    ensures ExprAdmitted(y, b, t, rules) == ExprAdmitted(x, a, s, rules)
    decreases x, 0
  {
    ExprAdmittedAlike(x.e, y.e, a, b, s, t, rules);
  }

  lemma {:induction false} SubqueryAdmittedAlike(x: Expr, y: Expr, a: Around, b: Around, s: Scopes, t: Scopes, rules: Rules)
    requires Alike(x, y) && AlikeAround(a, b) && AlikeScopes(s, t)
    requires x.Exists? || x.InQuery? || x.Scalar?
    ensures ExprAdmitted(y, b, t, rules) == ExprAdmitted(x, a, s, rules)
    decreases x, 0
  {
    AdmittedAlike(x.q, y.q, a, b, s, t, rules);
    if x.InQuery? { ExprAdmittedAlike(x.e, y.e, a, b, s, t, rules); }
  }

  lemma ColAdmittedAlike(x: Expr, y: Expr, a: Around, b: Around, s: Scopes, t: Scopes, rules: Rules)
    requires x.Col? && Alike(x, y) && AlikeAround(a, b)
    ensures ExprAdmitted(y, b, t, rules) == ExprAdmitted(x, a, s, rules)
  {
    KnownAlike(x.alias, x.name, a, b, rules.catalog);
  }

  lemma {:induction false} ItemsAdmittedAlike(items: seq<Item>, others: seq<Item>, a: Around, b: Around, s: Scopes, t: Scopes,
                                              rules: Rules)
    requires AlikeItems(items, others) && AlikeAround(a, b) && AlikeScopes(s, t)
    ensures ItemsAdmitted(others, b, t, rules) == ItemsAdmitted(items, a, s, rules)
    decreases items
  {
    if items != [] {
      ExprAdmittedAlike(items[0].e, others[0].e, a, b, s, t, rules);
      ItemsAdmittedAlike(items[1..], others[1..], a, b, s, t, rules);
    }
  }

  lemma {:induction false} KeyAdmittedAlike(key: GroupItem, other: GroupItem, a: Around, b: Around, s: Scopes, t: Scopes,
                                            rules: Rules)
    requires AlikeKey(key, other) && AlikeAround(a, b) && AlikeScopes(s, t)
    ensures KeyAdmitted(other, b, t, rules) == KeyAdmitted(key, a, s, rules)
    decreases key
  {
    match key
    case ByExpr(x) => ExprAdmittedAlike(x, other.e, a, b, s, t, rules);
    case ByName(_) =>
  }

  lemma {:induction false} KeysAdmittedAlike(keys: seq<GroupItem>, others: seq<GroupItem>, a: Around, b: Around, s: Scopes,
                                             t: Scopes, rules: Rules)
    requires AlikeKeys(keys, others) && AlikeAround(a, b) && AlikeScopes(s, t)
    ensures KeysAdmitted(others, b, t, rules) == KeysAdmitted(keys, a, s, rules)
    decreases keys
  {
    if keys != [] {
      KeyAdmittedAlike(keys[0], others[0], a, b, s, t, rules);
      KeysAdmittedAlike(keys[1..], others[1..], a, b, s, t, rules);
    }
  }
}
