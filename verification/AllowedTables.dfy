/**
 What the authority check guarantees (app/sql/service.py, app/sql/policy.py): an admitted query reads
 nothing but allowed tables.

 Main results: `AllowedOnly`, that its rows are the same on any two databases that agree on the
 allowed tables; `AdmittedJoined`, that its tables are all joined; and `OneTable`, exactly when a
 query of one table is admitted.
 */
module AllowedTables {
  import opened Seqs
  import opened Sql
  import opened Values
  import opened ColumnTrace
  import opened PostGates
  import JoinPolicy
  import JoinLinks

  /** Two databases that agree on these tables, seen past the same CTEs. */
  predicate Agree(c: Context, d: Context, allowed: set<string>) {
    c.ctes == d.ctes && forall t :: t in allowed ==>
      (t in c.tables <==> t in d.tables) && (t in c.tables ==> c.tables[t] == d.tables[t])
  }

  lemma {:induction false} LookedUp(s: Scopes, t: string)
    ensures Lookup(s, t).Some? ==> t in CteNames(s)
  {
    if s.Bind? { LookedUp(s.outer, t); }
  }

  lemma {:induction false} SameExpr(x: Expr, here: Around, s: Scopes, rules: Rules, c: Context, d: Context, e: Env, group: seq<Env>)
    requires ExprAdmitted(x, here, s, rules) && Agree(c, d, rules.allowed) && CteNames(s) <= c.ctes.Keys
    ensures Eval(x, c, e, group) == Eval(x, d, e, group)
    decreases x
  {
    match x
    case Lit(_) =>
    case Col(_, _) =>
    case Cmp(_, l, r) => SameExpr(l, here, s, rules, c, d, e, group); SameExpr(r, here, s, rules, c, d, e, group);
    case InList(y, _) => SameExpr(y, here, s, rules, c, d, e, group);
    case IsNull(y) => SameExpr(y, here, s, rules, c, d, e, group);
    case Plus(l, r) => SameExpr(l, here, s, rules, c, d, e, group); SameExpr(r, here, s, rules, c, d, e, group);
    case Cast(_, y) => SameExpr(y, here, s, rules, c, d, e, group);
    case Paren(y) => SameExpr(y, here, s, rules, c, d, e, group);
    case Not(y) => SameExpr(y, here, s, rules, c, d, e, group);
    case And(l, r) => SameExpr(l, here, s, rules, c, d, e, group); SameExpr(r, here, s, rules, c, d, e, group);
    case Or(l, r) => SameExpr(l, here, s, rules, c, d, e, group); SameExpr(r, here, s, rules, c, d, e, group);
    case If(t, l, r) =>
      SameExpr(t, here, s, rules, c, d, e, group);
      SameExpr(l, here, s, rules, c, d, e, group);
      SameExpr(r, here, s, rules, c, d, e, group);
    case Agg(_, y) =>
      forall g | g in group ensures ValueOf(y, c)(g) == ValueOf(y, d)(g) {
        SameExpr(y, here, s, rules, c, d, g, []);
      }
      MapCong(group, ValueOf(y, c), ValueOf(y, d));
    case Exists(q) => SameRows(q, here, s, rules, c, d, e);
    case InQuery(y, q) => SameExpr(y, here, s, rules, c, d, e, group); SameRows(q, here, s, rules, c, d, e);
    case Scalar(q) => SameRows(q, here, s, rules, c, d, e);
  }

  lemma {:induction false} SameSource(x: Source, here: Around, s: Scopes, rules: Rules, c: Context, d: Context, base: Env)
    requires SourceAdmitted(x, here, s, rules) && Agree(c, d, rules.allowed) && CteNames(s) <= c.ctes.Keys
    ensures SourceRows(x, c, base) == SourceRows(x, d, base)
    decreases x
  {
    match x
    case Named(t) => LookedUp(s, t);
    case Derived(q) => SameRows(q, here, s, rules, c, d, base);
  }

  lemma {:induction false} SameFrom(f: From, here: Around, s: Scopes, rules: Rules, c: Context, d: Context, base: Env)
    requires FromAdmitted(f, here, s, rules) && Agree(c, d, rules.allowed) && CteNames(s) <= c.ctes.Keys
    ensures FromRows(f, c, base) == FromRows(f, d, base)
    decreases f
  {
    SameSource(f.src, here, s, rules, c, d, base);
    if f.Join? {
      SameFrom(f.left, here, s, rules, c, d, base);
      forall e ensures HoldsAbove(f.on, c, base)(e) == HoldsAbove(f.on, d, base)(e) {
        SameExpr(f.on, here, s, rules, c, d, base + e, []);
      }
      JoinRowsCong(f.kind, FromRows(f.left, d, base), f.alias, SourceRows(f.src, d, base),
                   HoldsAbove(f.on, c, base), HoldsAbove(f.on, d, base));
    }
  }

  lemma {:induction false} SameItems(items: seq<Item>, here: Around, s: Scopes, rules: Rules, c: Context, d: Context, e: Env,
                                     group: seq<Env>)
    requires ItemsAdmitted(items, here, s, rules) && Agree(c, d, rules.allowed) && CteNames(s) <= c.ctes.Keys
    ensures OutputRow(items, c, e, group) == OutputRow(items, d, e, group)
    ensures forall n :: NamedValue(items, n, c, e) == NamedValue(items, n, d, e)
    decreases items
  {
    if items != [] {
      SameExpr(items[0].e, here, s, rules, c, d, e, group);
      SameExpr(items[0].e, here, s, rules, c, d, e, []);
      SameItems(items[1..], here, s, rules, c, d, e, group);
    }
  }

  lemma {:induction false} KeyAt(keys: seq<GroupItem>, i: nat, here: Around, s: Scopes, rules: Rules)
    requires i < |keys| && KeysAdmitted(keys, here, s, rules)
    ensures KeyAdmitted(keys[i], here, s, rules)
  {
    if i > 0 { KeyAt(keys[1..], i - 1, here, s, rules); }
  }

  lemma {:induction false} SameGroupKey(q: Query, here: Around, s: Scopes, rules: Rules, c: Context, d: Context, e: Env)
    requires q.Select? && q.group.By? && KeysAdmitted(q.group.keys, here, s, rules) && ItemsAdmitted(q.items, here, s, rules)
    requires Agree(c, d, rules.allowed) && CteNames(s) <= c.ctes.Keys
    ensures GroupKey(q, c)(e) == GroupKey(q, d)(e)
    decreases q, 0
  {
    forall i | 0 <= i < |q.group.keys| ensures GroupValue(q, i, c, e) == GroupValue(q, i, d, e) {
      KeyAt(q.group.keys, i, here, s, rules);
      match q.group.keys[i]
      case ByExpr(x) => SameExpr(x, here, s, rules, c, d, e, []);
      case ByName(_) => SameItems(q.items, here, s, rules, c, d, e, []);
    }
  }

  lemma {:induction false} SameKept(q: Query, a: Around, s: Scopes, rules: Rules, c: Context, d: Context, outer: Env)
    requires q.Select? && Admitted(q, a, s, rules) && Agree(c, d, rules.allowed) && CteNames(s) <= c.ctes.Keys
    ensures Kept(q, c, outer) == Kept(q, d, outer)
    decreases q, 1
  {
    var base, here := Visible(q, outer), Within(q.from, s, a);
    SameFrom(q.from, here, s, rules, c, d, base);
    var froms := Map(FromRows(q.from, d, base), Above(base));
    forall e ensures Holds(q.where, c)(e) == Holds(q.where, d)(e) {
      SameExpr(q.where, here, s, rules, c, d, e, []);
    }
    FilterCong(froms, Holds(q.where, c), Holds(q.where, d));
  }

  lemma {:induction false} SameProjected(q: Query, a: Around, s: Scopes, rules: Rules, c: Context, d: Context, outer: Env)
    requires q.Select? && Admitted(q, a, s, rules) && Agree(c, d, rules.allowed) && CteNames(s) <= c.ctes.Keys
    ensures Projected(q, c, outer) == Projected(q, d, outer)
    decreases q, 2
  {
    var base, here, kept := Visible(q, outer), Within(q.from, s, a), Kept(q, d, outer);
    SameKept(q, a, s, rules, c, d, outer);
    if Collapses(q) {
      if q.group.By? {
        forall e | e in kept ensures GroupKey(q, c)(e) == GroupKey(q, d)(e) {
          SameGroupKey(q, here, s, rules, c, d, e);
        }
        GroupsCong(kept, GroupKey(q, c), GroupKey(q, d));
      }
      var groups := Groups(q, d, kept);
      forall g: seq<Env> ensures HavingHolds(q, c, base)(g) == HavingHolds(q, d, base)(g) {
        SameExpr(q.having, here, s, rules, c, d, Representative(g, base), g);
      }
      forall g: seq<Env> ensures GroupRow(q, c, base)(g) == GroupRow(q, d, base)(g) {
        SameItems(q.items, here, s, rules, c, d, Representative(g, base), g);
      }
      FilterCong(groups, HavingHolds(q, c, base), HavingHolds(q, d, base));
      MapCong(Filter(groups, HavingHolds(q, d, base)), GroupRow(q, c, base), GroupRow(q, d, base));
    } else {
      forall e: Env ensures PlainRow(q, c)(e) == PlainRow(q, d)(e) {
        SameItems(q.items, here, s, rules, c, d, e, []);
      }
      MapCong(kept, PlainRow(q, c), PlainRow(q, d));
    }
  }

  lemma {:induction false} SameRows(q: Query, a: Around, s: Scopes, rules: Rules, c: Context, d: Context, outer: Env)
    requires Admitted(q, a, s, rules) && Agree(c, d, rules.allowed) && CteNames(s) <= c.ctes.Keys
    ensures Rows(q, c, outer) == Rows(q, d, outer)
    decreases q, 3
  {
    match q
    case Select(_, _, _, _, _, _, _, _) => SameProjected(q, a, s, rules, c, d, outer);
    case Union(l, r, _) => SameRows(l, a, s, rules, c, d, outer); SameRows(r, a, s, rules, c, d, outer);
    case With(name, def, body) =>
      SameRows(def, a, s, rules, c, d, outer);
      var rows := Rows(def, d, outer);
      SameRows(body, a, Bind(name, def, s), rules, c.(ctes := c.ctes[name := rows]), d.(ctes := d.ctes[name := rows]), outer);
  }

  /** An admitted query returns the same on any two databases that agree on the allowed tables. */
  lemma AllowedOnly(q: Query, rules: Rules, c: Context, d: Context, outer: Env)
    requires Admitted(q, Outside, Top, rules) && Agree(c, d, rules.allowed)
    ensures Rows(q, c, outer) == Rows(q, d, outer)
  {
    SameRows(q, Outside, Top, rules, c, d, outer);
  }

  /** Any two tables of an admitted SELECT are joined by authorized conditions. */
  lemma AdmittedJoined(q: Query, a: Around, s: Scopes, rules: Rules)
    requires q.Select? && Admitted(q, a, s, rules)
    ensures JoinLinks.AllJoined(q, CteNames(s), rules.known)
  {
    JoinLinks.ReachJoins(q, CteNames(s), rules.known);
  }

  /** SELECT a.column FROM table a */
  function OneColumn(table: string, alias: string, column: string): Query {
    Select(One(Named(table), alias), TRUE, Whole, TRUE, false, [Item(column, Col(alias, column))], false, None)
  }

  lemma NoPairs(q: Query, table: string, alias: string, column: string, here: Around, catalog: Catalog)
    requires q == OneColumn(table, alias, column) && here.Within?
    ensures SelectPairs(q, here, catalog) == []
  {
    assert q.items[1..] == [] && ItemPairs([], here, catalog) == [];
    assert Pairs(q.items[0].e, false, here, catalog) == [] && ItemPairs(q.items, here, catalog) == [];
    assert OnPairs(q.from, here, catalog) == [] && Pairs(TRUE, true, here, catalog) == [] && Pairs(TRUE, false, here, catalog) == [];
  }

  /** A query of one column of one table is admitted exactly when the table is in the catalog and allowed, and has the column. */
  lemma OneTable(table: string, alias: string, column: string, rules: Rules)
    ensures Admitted(OneColumn(table, alias, column), Outside, Top, rules) <==>
              table in rules.allowed && TableHas(rules.catalog, table, column)
  {
    var q := OneColumn(table, alias, column);
    var here := Within(q.from, Top, Outside);
    assert RelationAt(alias, here) == Some((Named(table), Top));
    OneItem(q, table, alias, column, here, rules);
    OneJoined(q, table, alias, column, here, rules);
    assert ExprAdmitted(TRUE, here, Top, rules) && FromAdmitted(q.from, here, Top, rules) == SourceAdmitted(q.from.src, here, Top, rules);
  }

  lemma OneItem(q: Query, table: string, alias: string, column: string, here: Around, rules: Rules)
    requires q == OneColumn(table, alias, column) && RelationAt(alias, here) == Some((Named(table), Top))
    ensures ItemsAdmitted(q.items, here, Top, rules) <==> TableHas(rules.catalog, table, column)
  {
    assert q.items[1..] == [] && ItemsAdmitted([], here, Top, rules);
    assert ExprAdmitted(q.items[0].e, here, Top, rules) <==> ColumnKnown(alias, column, here, rules.catalog);
  }

  lemma OneJoined(q: Query, table: string, alias: string, column: string, here: Around, rules: Rules)
    requires q == OneColumn(table, alias, column) && here == Within(q.from, Top, Outside)
    ensures JoinsAdmitted(q, here, rules)
  {
    NoPairs(q, table, alias, column, here, rules.catalog);
    var relations := JoinPolicy.RelationsOf(q.from, {});
    var edges := JoinPolicy.Links(q, relations, rules.known);
    assert relations == map[alias := Some(table)];
    assert JoinPolicy.Node(relations, alias) == "table:" + table;
    assert forall n :: n in JoinPolicy.Tables(relations) ==> n == "table:" + table;
    JoinPolicy.ReachesSelf(edges, "table:" + table);
  }
}
