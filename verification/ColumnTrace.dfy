/**
 Column tracing (app/sql/policy.py): which table column a CTE's or derived table's column
 is read from.

 Main results: `TracedOutput` and `TracedColumn`, that whenever a column is traced to a
 table column, each value it takes is that column's value in some row of that table, cast
 or not, or NULL from an outer join or an empty group.
 */
module ColumnTrace {
  import opened Seqs
  import opened Sql
  import opened Values
  import RowKeys

  /** The columns of each table of the catalog. */
  type Catalog = map<string, set<string>>

  type Column = (string, string)

  /** The CTEs in scope, innermost first; each definition reads the ones before it. */
  datatype Scopes = Top | Bind(name: string, def: Query, outer: Scopes)

  // The measure of the walks below: they follow FROM lists and CTE definitions only.

  function Size(q: Query): nat {
    match q
    case Select(from, _, _, _, _, _, _, _) => 1 + FromSize(from)
    case Union(l, r, _) => 1 + Size(l) + Size(r)
    case With(_, def, body) => 2 + Size(def) + Size(body)
  }

  function FromSize(f: From): nat {
    match f
    case One(s, _) => 1 + SourceSize(s)
    case Join(l, _, s, _, _) => 1 + FromSize(l) + SourceSize(s)
  }

  function SourceSize(s: Source): nat {
    if s.Derived? then 1 + Size(s.q) else 0
  }

  function Depth(scopes: Scopes): nat {
    match scopes
    case Top => 0
    case Bind(_, def, outer) => 1 + Size(def) + Depth(outer)
  }

  /** The definition a CTE name has here, and the CTEs that definition reads. */
  function Lookup(scopes: Scopes, name: string): (r: Option<(Query, Scopes)>)
    ensures r.Some? ==> Size(r.value.0) + Depth(r.value.1) < Depth(scopes)
  {
    match scopes
    case Top => None
    case Bind(n, def, outer) => if n == name then Some((def, outer)) else Lookup(outer, name)
  }

  function SourceOf(f: From, alias: string): (r: Option<Source>)
    ensures r.Some? ==> SourceSize(r.value) < FromSize(f)
  {
    if f.alias == alias then Some(f.src) else if f.Join? then SourceOf(f.left, alias) else None
  }

  // The columns a source shows.

  predicate TableHas(catalog: Catalog, table: string, name: string) {
    table in catalog && name in catalog[table]
  }

  /**
   The column names the policy reads off a query.  Of a set operation it reads the left
   select alone, and takes a `*` there to mean every CTE in scope.
   */
  function OutputColumns(q: Query, scopes: Scopes, catalog: Catalog): set<string>
    decreases Size(q) + Depth(scopes)
  {
    match q
    case Select(from, _, _, _, star, items, _, _) =>
      RowKeys.Names(items) + if star then FromColumns(from, scopes, catalog) else {}
    case Union(l, _, _) =>
      if l.Select? then RowKeys.Names(l.items) + (if l.star then CteColumns(scopes, catalog) else {}) else {}
    case With(name, def, body) => OutputColumns(body, Bind(name, def, scopes), catalog)
  }

  function FromColumns(f: From, scopes: Scopes, catalog: Catalog): set<string>
    decreases FromSize(f) + Depth(scopes)
  {
    SourceColumns(f.src, scopes, catalog) + if f.Join? then FromColumns(f.left, scopes, catalog) else {}
  }

  function SourceColumns(s: Source, scopes: Scopes, catalog: Catalog): set<string>
    decreases SourceSize(s) + Depth(scopes)
  {
    match s
    case Derived(q) => OutputColumns(q, scopes, catalog)
    case Named(t) =>
      var cte := Lookup(scopes, t);
      if cte.Some? then OutputColumns(cte.value.0, cte.value.1, catalog)
      else if t in catalog then catalog[t] else {}
  }

  function CteColumns(scopes: Scopes, catalog: Catalog): set<string>
    decreases Depth(scopes)
  {
    match scopes
    case Top => {}
    case Bind(_, def, outer) => OutputColumns(def, outer, catalog) + CteColumns(outer, catalog)
  }

  // The trace.

  function Unwrapped(x: Expr): Expr {
    match x
    case Cast(_, y) => Unwrapped(y)
    case Paren(y) => Unwrapped(y)
    case _ => x
  }

  /** The FROM-list relations that show a column of this name. */
  function Owners(f: From, name: string, scopes: Scopes, catalog: Catalog): (r: seq<string>)
    ensures forall a :: a in r ==> a in Aliases(f)
  {
    (if f.Join? then Owners(f.left, name, scopes, catalog) else []) +
    (if name in SourceColumns(f.src, scopes, catalog) then [f.alias] else [])
  }

  function FirstNamed(items: seq<Item>, name: string): (r: Option<nat>)
    ensures r.Some? ==> r.value < |items| && items[r.value].name == name
    ensures r.Some? ==> forall k :: 0 <= k < r.value ==> items[k].name != name
    ensures r.None? ==> forall k :: 0 <= k < |items| ==> items[k].name != name
  {
    if items == [] then None
    else if items[0].name == name then Some(0)
    else
      var rest := FirstNamed(items[1..], name);
      if rest.None? then None else Some(rest.value + 1)
  }

  /** The table column an expression over a FROM list reads; at the outer level only through a derived source. */
  function Trace(x: Expr, f: From, scopes: Scopes, catalog: Catalog, inner: bool): Option<Column>
    decreases FromSize(f) + Depth(scopes)
  {
    var column := Unwrapped(x);
    if !column.Col? then None else TraceAlias(column.alias, column.name, f, scopes, catalog, inner)
  }

  function TraceAlias(alias: string, name: string, f: From, scopes: Scopes, catalog: Catalog, inner: bool): Option<Column>
    decreases FromSize(f) + Depth(scopes), 0
  {
    var source := SourceOf(f, alias);
    if source.None? then None else TraceSource(source.value, name, scopes, catalog, inner)
  }

  function TraceSource(s: Source, name: string, scopes: Scopes, catalog: Catalog, inner: bool): Option<Column>
    decreases SourceSize(s) + Depth(scopes)
  {
    match s
    case Derived(q) => TraceOutput(q, name, scopes, catalog)
    case Named(t) =>
      var cte := Lookup(scopes, t);
      if cte.Some? then TraceOutput(cte.value.0, name, cte.value.1, catalog)
      else if inner && TableHas(catalog, t, name) then Some((t, name)) else None
  }

  function TraceOutput(q: Query, name: string, scopes: Scopes, catalog: Catalog): Option<Column>
    decreases Size(q) + Depth(scopes)
  {
    match q
    case Union(_, _, _) => None
    case With(n, def, body) => TraceOutput(body, name, Bind(n, def, scopes), catalog)
    case Select(from, _, _, _, star, items, _, _) =>
      var i := FirstNamed(items, name);
      if i.Some? then Trace(items[i.value].e, from, scopes, catalog, true)
      else if !star then None
      else
        var owners := Owners(from, name, scopes, catalog);
        if |owners| != 1 then None else TraceAlias(owners[0], name, from, scopes, catalog, true)
  }

  /** A column of a table, cast or not, is traced through any select that shows it under a name. */
  lemma TracesTable(q: Query, name: string, i: nat, alias: string, table: string, column: string, scopes: Scopes, catalog: Catalog)
    requires q.Select? && i < |q.items| && q.items[i].name == name && forall k :: 0 <= k < i ==> q.items[k].name != name
    requires Unwrapped(q.items[i].e) == Col(alias, column) && SourceOf(q.from, alias) == Some(Named(table))
    requires Lookup(scopes, table).None? && TableHas(catalog, table, column)
    ensures TraceOutput(q, name, scopes, catalog) == Some((table, column))
  {
    ShownTraces(q, name, i, alias, column, scopes, catalog);
    assert TraceSource(Named(table), column, scopes, catalog, true) == Some((table, column));
  }

  lemma ShownTraces(q: Query, name: string, i: nat, alias: string, column: string, scopes: Scopes, catalog: Catalog)
    requires q.Select? && i < |q.items| && q.items[i].name == name && forall k :: 0 <= k < i ==> q.items[k].name != name
    requires Unwrapped(q.items[i].e) == Col(alias, column)
    ensures TraceOutput(q, name, scopes, catalog) == TraceAlias(alias, column, q.from, scopes, catalog, true)
  {
    assert FirstNamed(q.items, name) == Some(i);
    assert TraceOutput(q, name, scopes, catalog) == Trace(q.items[i].e, q.from, scopes, catalog, true);
  }

  /** What is traced of a query is traced on through a select that shows it of a derived table, or of a CTE, of that query. */
  lemma TracesThrough(inner: Query, q: Query, name: string, i: nat, alias: string, column: string, cte: string, scopes: Scopes,
                      catalog: Catalog)
    requires q.Select? && i < |q.items| && q.items[i].name == name && forall k :: 0 <= k < i ==> q.items[k].name != name
    requires Unwrapped(q.items[i].e) == Col(alias, column)
    ensures SourceOf(q.from, alias) == Some(Derived(inner)) ==>
              TraceOutput(q, name, scopes, catalog) == TraceOutput(inner, column, scopes, catalog)
    ensures SourceOf(q.from, alias) == Some(Named(cte)) ==>
              TraceOutput(With(cte, inner, q), name, scopes, catalog) == TraceOutput(inner, column, scopes, catalog)
  {
    ShownTraces(q, name, i, alias, column, scopes, catalog);
    ShownTraces(q, name, i, alias, column, Bind(cte, inner, scopes), catalog);
    assert Lookup(Bind(cte, inner, scopes), cte) == Some((inner, scopes));
  }

  // What a trace promises.

  predicate Casts(v: Value, w: Value) {
    v == w || v == CastValue(ToText, w)
  }

  /** `v` is that column's value in some row of the table, cast or not, or NULL. */
  ghost predicate Derives(v: Value, tables: Tables, column: Column) {
    v == Null || (column.0 in tables && exists r :: r in tables[column.0] && Casts(v, Get(r, column.1)))
  }

  /** The CTE rows in view are those of the definitions in scope. */
  ghost predicate Backed(scopes: Scopes, c: Context) {
    match scopes
    case Top => c.ctes == map[]
    case Bind(n, def, outer) =>
      exists c', e :: Backed(outer, c') && c == c'.(ctes := c'.ctes[n := Rows(def, c', e)])
  }

  /** The database holds the catalog's tables, with the catalog's columns. */
  predicate Conforms(tables: Tables, catalog: Catalog) {
    forall t :: t in tables ==> t in catalog && forall i :: 0 <= i < |tables[t]| ==> tables[t][i].Keys <= catalog[t]
  }

  // Every column a query's rows can have, both sides of a set operation counted.

  function RowColumns(q: Query, scopes: Scopes, catalog: Catalog): set<string>
    decreases Size(q) + Depth(scopes)
  {
    match q
    case Select(from, _, _, _, star, items, _, _) =>
      RowKeys.Names(items) + if star then FromRowColumns(from, scopes, catalog) else {}
    case Union(l, r, _) => RowColumns(l, scopes, catalog) + RowColumns(r, scopes, catalog)
    case With(name, def, body) => RowColumns(body, Bind(name, def, scopes), catalog)
  }

  function FromRowColumns(f: From, scopes: Scopes, catalog: Catalog): set<string>
    decreases FromSize(f) + Depth(scopes)
  {
    SourceRowColumns(f.src, scopes, catalog) + if f.Join? then FromRowColumns(f.left, scopes, catalog) else {}
  }

  function SourceRowColumns(s: Source, scopes: Scopes, catalog: Catalog): set<string>
    decreases SourceSize(s) + Depth(scopes)
  {
    match s
    case Derived(q) => RowColumns(q, scopes, catalog)
    case Named(t) =>
      var cte := Lookup(scopes, t);
      if cte.Some? then RowColumns(cte.value.0, cte.value.1, catalog)
      else if t in catalog then catalog[t] else {}
  }

  /** PostgreSQL refuses to read a name two columns of a derived table have: no `*` shows one. */
  predicate Unambiguous(q: Query, scopes: Scopes, catalog: Catalog)
    decreases Size(q) + Depth(scopes)
  {
    match q
    case Select(from, _, _, _, star, _, _, _) =>
      DistinctAliases(from) && (star ==> ColumnsApart(from, scopes, catalog)) && FromUnambiguous(from, scopes, catalog)
    case Union(l, r, _) => Unambiguous(l, scopes, catalog) && Unambiguous(r, scopes, catalog)
    case With(name, def, body) => Unambiguous(def, scopes, catalog) && Unambiguous(body, Bind(name, def, scopes), catalog)
  }

  predicate FromUnambiguous(f: From, scopes: Scopes, catalog: Catalog)
    decreases FromSize(f) + Depth(scopes)
  {
    match f
    case One(s, _) => SourceUnambiguous(s, scopes, catalog)
    case Join(l, _, s, _, _) => SourceUnambiguous(s, scopes, catalog) && FromUnambiguous(l, scopes, catalog)
  }

  predicate SourceUnambiguous(s: Source, scopes: Scopes, catalog: Catalog)
    decreases SourceSize(s) + Depth(scopes)
  {
    s.Derived? ==> Unambiguous(s.q, scopes, catalog)
  }

  predicate ColumnsApart(f: From, scopes: Scopes, catalog: Catalog) {
    f.Join? ==> SourceRowColumns(f.src, scopes, catalog) !! FromRowColumns(f.left, scopes, catalog)
                && ColumnsApart(f.left, scopes, catalog)
  }

  predicate ScopesUnambiguous(scopes: Scopes, catalog: Catalog) {
    scopes.Bind? ==> Unambiguous(scopes.def, scopes.outer, catalog) && ScopesUnambiguous(scopes.outer, catalog)
  }

  ghost predicate Setting(scopes: Scopes, c: Context, catalog: Catalog) {
    Backed(scopes, c) && ScopesUnambiguous(scopes, catalog) && Conforms(c.tables, catalog)
  }

  // Where each alias's row comes from.

  lemma {:induction false} Found(scopes: Scopes, c: Context, catalog: Catalog, name: string) returns (c': Context, e: Env)
    requires Setting(scopes, c, catalog)
    ensures Lookup(scopes, name).None? ==> name !in c.ctes
    ensures Lookup(scopes, name).Some? ==>
      var (def, outer) := Lookup(scopes, name).value;
      && name in c.ctes && c.ctes[name] == Rows(def, c', e) && c'.tables == c.tables
      && Setting(outer, c', catalog) && Unambiguous(def, outer, catalog)
  {
    c', e := c, map[];
    if scopes.Bind? {
      c', e :| Backed(scopes.outer, c') && c == c'.(ctes := c'.ctes[scopes.name := Rows(scopes.def, c', e)]);
      if scopes.name != name {
        c', e := Found(scopes.outer, c', catalog, name);
      }
    }
  }

  lemma MatchedRow(e: Env, alias: string, rows: seq<Row>, ok: Env -> bool, l: Env)
    requires l in Matches(e, alias, rows, ok)
    ensures l - {alias} == e - {alias} && alias in l && l[alias] in rows
  {
    FilterIn(Map(rows, Extend(e, alias)), ok);
    var i :| 0 <= i < |rows| && l == e[alias := rows[i]];
    assert e[alias := rows[i]] - {alias} == e - {alias};
  }

  /** `l` extends the combination `e` of the left side by a row, is `e`, or pads a row of the right side. */
  predicate Joins(l: Env, e: Env, lefts: seq<Env>, alias: string, rows: seq<Row>) {
    && l - {alias} == e - {alias} && (e == map[] || e in lefts)
    && (l == e || (alias in l && l[alias] in rows))
  }

  lemma UnmatchedRow(lefts: seq<Env>, alias: string, rows: seq<Row>, ok: Env -> bool, l: Env)
    requires l in Unmatched(lefts, alias, rows, ok)
    ensures Joins(l, map[], lefts, alias, rows)
  {
    var lonely := Filter(rows, Lonely(alias, lefts, ok));
    FilterIn(rows, Lonely(alias, lefts, ok));
    var i :| 0 <= i < |lonely| && l == Extend(map[], alias)(lonely[i]);
    assert lonely[i] in rows;
    assert l - {alias} == map[] - {alias};
  }

  lemma StepRow(lefts: seq<Env>, alias: string, rows: seq<Row>, ok: Env -> bool, l: Env) returns (e: Env)
    requires l in FlatMap(lefts, InnerStep(alias, rows, ok))
    ensures Joins(l, e, lefts, alias, rows)
  {
    FlatMapIn(lefts, InnerStep(alias, rows, ok), l);
    e :| e in lefts && l in InnerStep(alias, rows, ok)(e);
    MatchedRow(e, alias, rows, ok, l);
  }

  lemma OuterStepRow(lefts: seq<Env>, alias: string, rows: seq<Row>, ok: Env -> bool, l: Env) returns (e: Env)
    requires l in FlatMap(lefts, OuterStep(alias, rows, ok))
    ensures Joins(l, e, lefts, alias, rows)
  {
    FlatMapIn(lefts, OuterStep(alias, rows, ok), l);
    e :| e in lefts && l in OuterStep(alias, rows, ok)(e);
    if l in Matches(e, alias, rows, ok) { MatchedRow(e, alias, rows, ok, l); }
  }

  lemma JoinedRow(kind: JoinKind, lefts: seq<Env>, alias: string, rows: seq<Row>, ok: Env -> bool, l: Env)
    ensures l in JoinRows(kind, lefts, alias, rows, ok) ==> exists e :: Joins(l, e, lefts, alias, rows)
  {
    if l in FlatMap(lefts, InnerStep(alias, rows, ok)) {
      var e := StepRow(lefts, alias, rows, ok, l);
    }
    if l in FlatMap(lefts, OuterStep(alias, rows, ok)) {
      var e := OuterStepRow(lefts, alias, rows, ok, l);
    }
    if l in Unmatched(lefts, alias, rows, ok) {
      UnmatchedRow(lefts, alias, rows, ok, l);
    }
  }

  /** Each alias of the FROM list holds a row of its own source, if any. */
  ghost predicate FromEach(f: From, c: Context, base: Env, e: Env) {
    (f.alias in e ==> e[f.alias] in SourceRows(f.src, c, base)) && (f.Join? ==> FromEach(f.left, c, base, e))
  }

  lemma {:induction false} FromEachCong(f: From, c: Context, base: Env, e: Env, e': Env)
    requires FromEach(f, c, base, e) && forall a :: a in Aliases(f) && a in e' ==> a in e && e[a] == e'[a]
    ensures FromEach(f, c, base, e')
  {
    assert f.alias in Aliases(f);
    if f.Join? { FromEachCong(f.left, c, base, e, e'); }
  }

  lemma {:induction false} EachRow(f: From, c: Context, base: Env, l: Env)
    requires DistinctAliases(f) && l in FromRows(f, c, base)
    ensures FromEach(f, c, base, l) && l.Keys <= Aliases(f)
  {
    if f.One? {
      var i :| 0 <= i < |SourceRows(f.src, c, base)| && l == Extend(map[], f.alias)(SourceRows(f.src, c, base)[i]);
    } else {
      var lefts, rows := FromRows(f.left, c, base), SourceRows(f.src, c, base);
      JoinedRow(f.kind, lefts, f.alias, rows, HoldsAbove(f.on, c, base), l);
      var e :| Joins(l, e, lefts, f.alias, rows);
      if e == map[] { EmptyEach(f.left, c, base); } else { EachRow(f.left, c, base, e); }
      forall a | a in l && a != f.alias ensures a in e && e[a] == l[a] {
        assert a in l - {f.alias} && (l - {f.alias})[a] == l[a];
      }
      FromEachCong(f.left, c, base, e, l);
    }
  }

  lemma {:induction false} EmptyEach(f: From, c: Context, base: Env)
    ensures FromEach(f, c, base, map[])
  {
    if f.Join? { EmptyEach(f.left, c, base); }
  }

  /** What WHERE keeps holds rows of the sources: an alias hides an enclosing query's of the same name. */
  lemma KeptEach(q: Query, c: Context, outer: Env, e: Env)
    requires q.Select? && DistinctAliases(q.from) && e in Kept(q, c, outer)
    ensures FromEach(q.from, c, Visible(q, outer), e)
  {
    var base := Visible(q, outer);
    FilterIn(Map(FromRows(q.from, c, base), Above(base)), Holds(q.where, c));
    var i :| 0 <= i < |FromRows(q.from, c, base)| && e == Above(base)(FromRows(q.from, c, base)[i]);
    EachRow(q.from, c, base, FromRows(q.from, c, base)[i]);
    FromEachCong(q.from, c, base, FromRows(q.from, c, base)[i], e);
  }

  /** A group is empty only without GROUP BY, and otherwise holds kept combinations. */
  lemma GroupEach(q: Query, c: Context, outer: Env, g: seq<Env>)
    requires q.Select? && DistinctAliases(q.from) && g in Groups(q, c, Kept(q, c, outer))
    ensures FromEach(q.from, c, Visible(q, outer), Representative(g, Visible(q, outer)))
  {
    var base, kept := Visible(q, outer), Kept(q, c, outer);
    if g == [] {
      EmptyEach(q.from, c, base);
      FromEachCong(q.from, c, base, map[], base);
    } else {
      if q.group.By? {
        var keyOf := GroupKey(q, c);
        var ks := Distinct(Map(kept, keyOf));
        var i :| 0 <= i < |ks| && g == Filter(kept, Having(keyOf, ks[i]));
        FilterIn(kept, Having(keyOf, ks[i]));
      }
      assert g[0] in g;
      KeptEach(q, c, outer, g[0]);
    }
  }

  // No row shows a column its query does not.

  ghost predicate Fits(f: From, e: Env, scopes: Scopes, catalog: Catalog) {
    RowOf(e, f.alias).Keys <= SourceRowColumns(f.src, scopes, catalog) && (f.Join? ==> Fits(f.left, e, scopes, catalog))
  }

  lemma {:induction false} StarFits(f: From, e: Env, scopes: Scopes, catalog: Catalog)
    requires Fits(f, e, scopes, catalog)
    ensures StarRow(f, e).Keys <= FromRowColumns(f, scopes, catalog)
  {
    if f.Join? { StarFits(f.left, e, scopes, catalog); }
  }

  lemma {:induction false} RowsShown(q: Query, scopes: Scopes, c: Context, outer: Env, catalog: Catalog, row: Row)
    requires Setting(scopes, c, catalog) && Unambiguous(q, scopes, catalog) && row in Rows(q, c, outer)
    ensures row.Keys <= RowColumns(q, scopes, catalog)
    decreases Size(q) + Depth(scopes)
  {
    match q
    case Union(l, r, _) =>
      if row in Rows(l, c, outer) { RowsShown(l, scopes, c, outer, catalog, row); }
      else { RowsShown(r, scopes, c, outer, catalog, row); }
    case With(name, def, body) =>
      RowsShown(body, Bind(name, def, scopes), c.(ctes := c.ctes[name := Rows(def, c, outer)]), outer, catalog, row);
    case Select(_, _, _, _, _, _, _, _) =>
      var x, e, g := SelectRow(q, c, outer, row);
      EachFits(q.from, scopes, c, Visible(q, outer), catalog, e);
      StarFits(q.from, e, scopes, catalog);
  }

  lemma {:induction false} SourceShown(s: Source, scopes: Scopes, c: Context, base: Env, catalog: Catalog, row: Row)
    requires Setting(scopes, c, catalog) && SourceUnambiguous(s, scopes, catalog) && row in SourceRows(s, c, base)
    ensures row.Keys <= SourceRowColumns(s, scopes, catalog)
    decreases SourceSize(s) + Depth(scopes)
  {
    match s
    case Derived(q) => RowsShown(q, scopes, c, base, catalog, row);
    case Named(t) =>
      var c', e := Found(scopes, c, catalog, t);
      var cte := Lookup(scopes, t);
      if cte.Some? {
        RowsShown(cte.value.0, cte.value.1, c', e, catalog, row);
      } else {
        var i :| 0 <= i < |c.tables[t]| && c.tables[t][i] == row;
      }
  }

  lemma {:induction false} EachFits(f: From, scopes: Scopes, c: Context, base: Env, catalog: Catalog, e: Env)
    requires Setting(scopes, c, catalog) && FromUnambiguous(f, scopes, catalog) && FromEach(f, c, base, e)
    ensures Fits(f, e, scopes, catalog)
    decreases FromSize(f) + Depth(scopes)
  {
    if f.alias in e { SourceShown(f.src, scopes, c, base, catalog, e[f.alias]); }
    if f.Join? { EachFits(f.left, scopes, c, base, catalog, e); }
  }

  lemma GroupOfRow(q: Query, c: Context, outer: Env, row: Row) returns (g: seq<Env>)
    requires q.Select? && Collapses(q) && row in Projected(q, c, outer)
    ensures g in Groups(q, c, Kept(q, c, outer)) && row == GroupRow(q, c, Visible(q, outer))(g)
  {
    var base, rows, groups := Visible(q, outer), Projected(q, c, outer), Groups(q, c, Kept(q, c, outer));
    FilterIn(groups, HavingHolds(q, c, base));
    var i :| 0 <= i < |rows| && row == rows[i];
    g := Filter(groups, HavingHolds(q, c, base))[i];
  }

  /** Each row of a select is made from one combination, whose rows are its sources'. */
  lemma SelectRow(q: Query, c: Context, outer: Env, row: Row) returns (star: bool, e: Env, g: seq<Env>)
    requires q.Select? && DistinctAliases(q.from) && row in Rows(q, c, outer)
    ensures FromEach(q.from, c, Visible(q, outer), e) && (star ==> q.star)
    ensures row == (if star then StarRow(q.from, e) else map[]) + OutputRow(q.items, c, e, g)
  {
    var base, kept := Visible(q, outer), Kept(q, c, outer);
    var rows := Projected(q, c, outer);
    assert row in rows;
    if Collapses(q) {
      g := GroupOfRow(q, c, outer, row);
      star, e := false, Representative(g, base);
      GroupEach(q, c, outer, g);
      assert map[] + OutputRow(q.items, c, e, g) == OutputRow(q.items, c, e, g);
    } else {
      var i :| 0 <= i < |rows| && row == rows[i];
      star, e, g := q.star, kept[i], [];
      assert row == PlainRow(q, c)(e);
      KeptEach(q, c, outer, e);
    }
  }

  // Soundness.

  lemma {:induction false} TraceShown(q: Query, name: string, scopes: Scopes, catalog: Catalog)
    requires TraceOutput(q, name, scopes, catalog).Some?
    ensures name in RowColumns(q, scopes, catalog)
    decreases Size(q) + Depth(scopes)
  {
    match q
    case With(n, def, body) => TraceShown(body, name, Bind(n, def, scopes), catalog);
    case Select(from, _, _, _, star, items, _, _) =>
      var i := FirstNamed(items, name);
      if i.Some? {
        assert items[i.value] in items;
      } else {
        SourceTraceShown(from, Owners(from, name, scopes, catalog)[0], name, scopes, catalog);
      }
  }

  lemma {:induction false} SourceTraceShown(f: From, alias: string, name: string, scopes: Scopes, catalog: Catalog)
    requires TraceAlias(alias, name, f, scopes, catalog, true).Some?
    ensures name in SourceRowColumns(SourceOf(f, alias).value, scopes, catalog)
    ensures name in FromRowColumns(f, scopes, catalog)
    decreases FromSize(f) + Depth(scopes)
  {
    if f.alias == alias {
      match f.src
      case Derived(q) => TraceShown(q, name, scopes, catalog);
      case Named(t) =>
        var cte := Lookup(scopes, t);
        if cte.Some? { TraceShown(cte.value.0, name, cte.value.1, catalog); }
    } else {
      SourceTraceShown(f.left, alias, name, scopes, catalog);
    }
  }

  /** Under `*`, the name comes from the one source that has it. */
  lemma {:induction false} StarColumn(f: From, alias: string, name: string, e: Env, scopes: Scopes, catalog: Catalog)
    requires TraceAlias(alias, name, f, scopes, catalog, true).Some?
    requires Fits(f, e, scopes, catalog) && ColumnsApart(f, scopes, catalog)
    ensures Get(StarRow(f, e), name) == Get(RowOf(e, alias), name)
  {
    SourceTraceShown(f, alias, name, scopes, catalog);
    if f.Join? {
      StarFits(f.left, e, scopes, catalog);
      if f.alias != alias {
        SourceTraceShown(f.left, alias, name, scopes, catalog);
        StarColumn(f.left, alias, name, e, scopes, catalog);
      }
    }
  }

  lemma {:induction false} UnwrappedDerives(x: Expr, c: Context, e: Env, g: seq<Env>, column: Column)
    requires Derives(Eval(Unwrapped(x), c, e, g), c.tables, column)
    ensures Derives(Eval(x, c, e, g), c.tables, column)
  {
    match x
    case Cast(k, y) =>
      UnwrappedDerives(y, c, e, g, column);
    case Paren(y) => UnwrappedDerives(y, c, e, g, column);
    case _ =>
  }

  /** A column of a FROM list that is traced takes only values of the table column it is traced to. */
  lemma {:induction false} TracedAlias(alias: string, name: string, f: From, scopes: Scopes, c: Context, base: Env,
                                       catalog: Catalog, inner: bool, e: Env)
    requires TraceAlias(alias, name, f, scopes, catalog, inner).Some?
    requires Setting(scopes, c, catalog) && FromUnambiguous(f, scopes, catalog) && FromEach(f, c, base, e)
    ensures Derives(Get(RowOf(e, alias), name), c.tables, TraceAlias(alias, name, f, scopes, catalog, inner).value)
    decreases FromSize(f) + Depth(scopes), 0
  {
    if f.alias != alias {
      TracedAlias(alias, name, f.left, scopes, c, base, catalog, inner, e);
    } else if alias in e {
      match f.src
      case Derived(q) => TracedOutput(q, name, scopes, c, base, catalog, e[alias]);
      case Named(t) =>
        var c', above := Found(scopes, c, catalog, t);
        var cte := Lookup(scopes, t);
        if cte.Some? {
          TracedOutput(cte.value.0, name, cte.value.1, c', above, catalog, e[alias]);
        } else {
          assert Casts(Get(e[alias], name), Get(e[alias], name));
        }
    }
  }

  /**
   Whenever a CTE's or derived table's column is traced, each value it takes is that table
   column's value in some row of the table, cast or not, or NULL.
   */
  lemma {:induction false} TracedOutput(q: Query, name: string, scopes: Scopes, c: Context, outer: Env,
                                        catalog: Catalog, row: Row)
    requires TraceOutput(q, name, scopes, catalog).Some?
    requires Setting(scopes, c, catalog) && Unambiguous(q, scopes, catalog) && row in Rows(q, c, outer)
    ensures Derives(Get(row, name), c.tables, TraceOutput(q, name, scopes, catalog).value)
    decreases Size(q) + Depth(scopes)
  {
    match q
    case With(n, def, body) =>
      TracedOutput(body, name, Bind(n, def, scopes), c.(ctes := c.ctes[n := Rows(def, c, outer)]), outer, catalog, row);
    case Select(from, _, _, _, _, items, _, _) =>
      var base := Visible(q, outer);
      var star, e, g := SelectRow(q, c, outer, row);
      var i := FirstNamed(items, name);
      if i.Some? {
        var x := items[i.value].e;
        RowKeys.OutputAt(items, i.value, c, e, g);
        assert items[i.value] in items;
        TracedAlias(Unwrapped(x).alias, Unwrapped(x).name, from, scopes, c, base, catalog, true, e);
        assert Eval(Unwrapped(x), c, e, g) == Get(RowOf(e, Unwrapped(x).alias), Unwrapped(x).name);
        UnwrappedDerives(x, c, e, g, TraceOutput(q, name, scopes, catalog).value);
      } else if star {
        var owner := Owners(from, name, scopes, catalog)[0];
        EachFits(from, scopes, c, base, catalog, e);
        StarColumn(from, owner, name, e, scopes, catalog);
        TracedAlias(owner, name, from, scopes, c, base, catalog, true, e);
      }
  }

  /** The sides of an equality: what a column of a select is traced to, on every row it keeps. */
  lemma TracedColumn(x: Expr, q: Query, scopes: Scopes, c: Context, outer: Env, catalog: Catalog, inner: bool, e: Env)
    requires q.Select? && Trace(x, q.from, scopes, catalog, inner).Some?
    requires Setting(scopes, c, catalog) && Unambiguous(q, scopes, catalog) && e in Kept(q, c, outer)
    ensures Derives(Eval(x, c, e, []), c.tables, Trace(x, q.from, scopes, catalog, inner).value)
  {
    var column := Unwrapped(x);
    KeptEach(q, c, outer, e);
    TracedAlias(column.alias, column.name, q.from, scopes, c, Visible(q, outer), catalog, inner, e);
    assert Eval(column, c, e, []) == Get(RowOf(e, column.alias), column.name);
    UnwrappedDerives(x, c, e, [], Trace(x, q.from, scopes, catalog, inner).value);
  }
}
