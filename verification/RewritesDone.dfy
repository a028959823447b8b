/**
 What the rewrites after the gates leave behind (app/sql/values.py, app/sql/precision.py): with
 PostGates, which says that they change nothing else, that they do their work everywhere.

 Main result: `RewriteSettles`.  After respelling, no text compared for equality or membership with
 a table's column is spelled other than it is stored; after widening, no single-precision column
 is summed or made numeric as it is.
 */
module RewritesDone {
  import opened Seqs
  import opened Sql
  import opened Values
  import opened PostGates

  /** The value beside this column is spelled as it is stored. */
  predicate AsStored(p: Pass, column: Expr, v: Value, tables: map<string, string>) {
    p.Respell? && column.Col? && v.Text? && column.alias in tables ==>
      p.spelling(tables[column.alias], column.name, v.s) == v.s
  }

  predicate AllAsStored(p: Pass, column: Expr, items: seq<Value>, tables: map<string, string>) {
    (forall i :: 0 <= i < |items| ==> items[i].Text?) ==> forall i :: 0 <= i < |items| ==> AsStored(p, column, items[i], tables)
  }

  predicate IsSingle(p: Pass, x: Expr, tables: map<string, string>) {
    p.Widen? && x.Col? && x.alias in tables && p.single(tables[x.alias], x.name)
  }

  predicate Settled(p: Pass, x: Expr, tables: map<string, string>, ctes: set<string>, inSum: bool)
    decreases x
  {
    match x
    case Lit(_) => true
    case Col(_, _) => !(inSum && IsSingle(p, x, tables))
    case Cmp(op, l, r) =>
      && Settled(p, l, tables, ctes, inSum) && Settled(p, r, tables, ctes, inSum)
      && (op.Eq? || op.Ne? ==> (l.Lit? ==> AsStored(p, r, l.v, tables)) && (r.Lit? ==> AsStored(p, l, r.v, tables)))
    case InList(y, items) => Settled(p, y, tables, ctes, inSum) && AllAsStored(p, y, items, tables)
    case IsNull(y) => Settled(p, y, tables, ctes, inSum)
    case Plus(l, r) => Settled(p, l, tables, ctes, inSum) && Settled(p, r, tables, ctes, inSum)
    case Cast(k, y) => if y.Col? then !(k.ToNumeric? && IsSingle(p, y, tables)) else Settled(p, y, tables, ctes, inSum)
    case Paren(y) => Settled(p, y, tables, ctes, inSum)
    case Not(y) => Settled(p, y, tables, ctes, inSum)
    case And(l, r) => Settled(p, l, tables, ctes, inSum) && Settled(p, r, tables, ctes, inSum)
    case Or(l, r) => Settled(p, l, tables, ctes, inSum) && Settled(p, r, tables, ctes, inSum)
    case If(t, l, r) =>
      Settled(p, t, tables, ctes, inSum) && Settled(p, l, tables, ctes, inSum) && Settled(p, r, tables, ctes, inSum)
    case Agg(f, y) => Settled(p, y, tables, ctes, inSum || f.Sum?)
    case Exists(q) => QuerySettled(p, q, ctes, inSum)
    case InQuery(y, q) => Settled(p, y, tables, ctes, inSum) && QuerySettled(p, q, ctes, inSum)
    case Scalar(q) => QuerySettled(p, q, ctes, inSum)
  }

  predicate QuerySettled(p: Pass, q: Query, ctes: set<string>, inSum: bool)
    decreases q
  {
    match q
    case Select(from, where, group, having, _, items, _, _) =>
      var tables := Direct(from, ctes);
      && FromSettled(p, from, tables, ctes, inSum) && Settled(p, where, tables, ctes, inSum)
      && GroupingSettled(p, group, tables, ctes, inSum) && Settled(p, having, tables, ctes, inSum)
      && ItemsSettled(p, items, tables, ctes, inSum)
    case Union(l, r, _) => QuerySettled(p, l, ctes, inSum) && QuerySettled(p, r, ctes, inSum)
    case With(_, def, body) => QuerySettled(p, def, ctes, inSum) && QuerySettled(p, body, ctes, inSum)
  }

  predicate FromSettled(p: Pass, f: From, tables: map<string, string>, ctes: set<string>, inSum: bool)
    decreases f
  {
    match f
    case One(s, _) => s.Derived? ==> QuerySettled(p, s.q, ctes, inSum)
    case Join(l, _, s, _, on) =>
      && FromSettled(p, l, tables, ctes, inSum) && Settled(p, on, tables, ctes, inSum)
      && (s.Derived? ==> QuerySettled(p, s.q, ctes, inSum))
  }

  predicate ItemsSettled(p: Pass, items: seq<Item>, tables: map<string, string>, ctes: set<string>, inSum: bool)
    decreases items
  {
    items != [] ==> Settled(p, items[0].e, tables, ctes, inSum) && ItemsSettled(p, items[1..], tables, ctes, inSum)
  }

  predicate GroupingSettled(p: Pass, g: Grouping, tables: map<string, string>, ctes: set<string>, inSum: bool)
    decreases g
  {
    match g
    case Whole => true
    case By(keys) => KeysSettled(p, keys, tables, ctes, inSum)
  }

  predicate KeySettled(p: Pass, key: GroupItem, tables: map<string, string>, ctes: set<string>, inSum: bool)
    decreases key
  {
    match key
    case ByExpr(x) => Settled(p, x, tables, ctes, inSum)
    case ByName(_) => true
  }

  predicate KeysSettled(p: Pass, keys: seq<GroupItem>, tables: map<string, string>, ctes: set<string>, inSum: bool)
    decreases keys
  {
    keys != [] ==> KeySettled(p, keys[0], tables, ctes, inSum) && KeysSettled(p, keys[1..], tables, ctes, inSum)
  }

  /** A stored spelling is its own: as the check of a respelled text finds. */
  ghost predicate Stable(p: Pass) {
    p.Respell? ==> forall t, c, s :: p.spelling(t, c, p.spelling(t, c, s)) == p.spelling(t, c, s)
  }

  lemma {:induction false} SameDirect(p: Pass, f: From, tables: map<string, string>, ctes: set<string>, inSum: bool)
    ensures Direct(RewriteFrom(p, f, tables, ctes, inSum), ctes) == Direct(f, ctes)
  {
    if f.Join? { SameDirect(p, f.left, tables, ctes, inSum); }
  }

  lemma ColumnStays(p: Pass, x: Expr, tables: map<string, string>, ctes: set<string>, inSum: bool)
    requires RewriteExpr(p, x, tables, ctes, inSum).Col?
    ensures RewriteExpr(p, x, tables, ctes, inSum) == x
  {
  }

  lemma ComparisonSettles(p: Pass, x: Expr, tables: map<string, string>, ctes: set<string>, inSum: bool)
    requires Stable(p) && x.Cmp?
    requires Settled(p, RewriteExpr(p, x.l, tables, ctes, inSum), tables, ctes, inSum)
    requires Settled(p, RewriteExpr(p, x.r, tables, ctes, inSum), tables, ctes, inSum)
    ensures Settled(p, RewriteExpr(p, x, tables, ctes, inSum), tables, ctes, inSum)
  {
    var equality := x.op.Eq? || x.op.Ne?;
    var l := Side(p, x.l, x.r, tables, ctes, inSum, equality);
    var r := Side(p, x.r, x.l, tables, ctes, inSum, equality);
    assert RewriteExpr(p, x, tables, ctes, inSum) == Cmp(x.op, l, r);
    SideSettles(p, x.l, x.r, tables, ctes, inSum, equality);
    SideSettles(p, x.r, x.l, tables, ctes, inSum, equality);
  }

  /** What one side of a comparison becomes, the other being this. */
  function Side(p: Pass, x: Expr, other: Expr, tables: map<string, string>, ctes: set<string>, inSum: bool, equality: bool): Expr {
    if equality && x.Lit? then Lit(Spelled(p, other, x.v, tables)) else RewriteExpr(p, x, tables, ctes, inSum)
  }

  lemma SideSettles(p: Pass, x: Expr, other: Expr, tables: map<string, string>, ctes: set<string>, inSum: bool, equality: bool)
    requires Stable(p) && Settled(p, RewriteExpr(p, x, tables, ctes, inSum), tables, ctes, inSum)
    ensures var here, there := Side(p, x, other, tables, ctes, inSum, equality), Side(p, other, x, tables, ctes, inSum, equality);
      Settled(p, here, tables, ctes, inSum) && (equality && here.Lit? ==> AsStored(p, there, here.v, tables))
  {
    var here, there := Side(p, x, other, tables, ctes, inSum, equality), Side(p, other, x, tables, ctes, inSum, equality);
    if equality && here.Lit? && !x.Lit? {
      LiteralStays(p, x, tables, ctes, inSum);
    }
    if there.Col? { ColumnStays(p, other, tables, ctes, inSum); }
  }

  lemma LiteralStays(p: Pass, x: Expr, tables: map<string, string>, ctes: set<string>, inSum: bool)
    requires RewriteExpr(p, x, tables, ctes, inSum).Lit?
    ensures x.Lit?
  {
  }

  lemma ListSettles(p: Pass, x: Expr, tables: map<string, string>, ctes: set<string>, inSum: bool)
    requires Stable(p) && x.InList? && Settled(p, RewriteExpr(p, x.e, tables, ctes, inSum), tables, ctes, inSum)
    ensures Settled(p, RewriteExpr(p, x, tables, ctes, inSum), tables, ctes, inSum)
  {
    var y := RewriteExpr(p, x.e, tables, ctes, inSum);
    if y.Col? { ColumnStays(p, x.e, tables, ctes, inSum); }
    if AllText(x.items) {
      var items := SpelledAll(p, x.e, x.items, tables);
      forall i | 0 <= i < |items| ensures AsStored(p, y, items[i], tables) {
      }
    }
  }

  lemma {:induction false} ExprSettles(p: Pass, x: Expr, tables: map<string, string>, ctes: set<string>, inSum: bool)
    requires Stable(p)
    ensures Settled(p, RewriteExpr(p, x, tables, ctes, inSum), tables, ctes, inSum)
    decreases x, 1
  {
    match x
    case Lit(_) =>
    case Col(_, _) =>
    case Cmp(_, _, _) => BinarySettles(p, x, tables, ctes, inSum); ComparisonSettles(p, x, tables, ctes, inSum);
    case InList(y, _) => ExprSettles(p, y, tables, ctes, inSum); ListSettles(p, x, tables, ctes, inSum);
    case IsNull(y) => ExprSettles(p, y, tables, ctes, inSum);
    case Plus(_, _) => BinarySettles(p, x, tables, ctes, inSum);
    case Cast(_, y) => ExprSettles(p, y, tables, ctes, inSum); CastSettles(p, x, tables, ctes, inSum);
    case Paren(y) => ExprSettles(p, y, tables, ctes, inSum);
    case Not(y) => ExprSettles(p, y, tables, ctes, inSum);
    case And(_, _) => BinarySettles(p, x, tables, ctes, inSum);
    case Or(_, _) => BinarySettles(p, x, tables, ctes, inSum);
    case If(t, l, r) =>
      ExprSettles(p, t, tables, ctes, inSum);
      ExprSettles(p, l, tables, ctes, inSum);
      ExprSettles(p, r, tables, ctes, inSum);
    case Agg(f, y) => ExprSettles(p, y, tables, ctes, inSum || f.Sum?);
    case Exists(q) => RewriteSettles(p, q, ctes, inSum);
    case InQuery(y, q) => ExprSettles(p, y, tables, ctes, inSum); RewriteSettles(p, q, ctes, inSum);
    case Scalar(q) => RewriteSettles(p, q, ctes, inSum);
  }

  lemma {:induction false} BinarySettles(p: Pass, x: Expr, tables: map<string, string>, ctes: set<string>, inSum: bool)
    requires Stable(p) && (x.Cmp? || x.Plus? || x.And? || x.Or?)
    ensures Settled(p, RewriteExpr(p, x.l, tables, ctes, inSum), tables, ctes, inSum)
    ensures Settled(p, RewriteExpr(p, x.r, tables, ctes, inSum), tables, ctes, inSum)
    decreases x, 0
  {
    ExprSettles(p, x.l, tables, ctes, inSum);
    ExprSettles(p, x.r, tables, ctes, inSum);
  }

  lemma CastSettles(p: Pass, x: Expr, tables: map<string, string>, ctes: set<string>, inSum: bool)
    requires x.Cast? && Settled(p, RewriteExpr(p, x.e, tables, ctes, inSum), tables, ctes, inSum)
    ensures Settled(p, RewriteExpr(p, x, tables, ctes, inSum), tables, ctes, inSum)
  {
    var y := RewriteExpr(p, x.e, tables, ctes, inSum);
    if y.Col? { ColumnStays(p, x.e, tables, ctes, inSum); }
  }

  /** Everywhere in a rewritten query, what the rewrite is for is done. */
  lemma {:induction false} RewriteSettles(p: Pass, q: Query, ctes: set<string>, inSum: bool)
    requires Stable(p)
    ensures QuerySettled(p, Rewrite(p, q, ctes, inSum), ctes, inSum)
    decreases q
  {
    match q
    case Select(from, where, group, having, _, items, _, _) =>
      var tables := Direct(from, ctes);
      SameDirect(p, from, tables, ctes, inSum);
      FromSettles(p, from, tables, ctes, inSum);
      ExprSettles(p, where, tables, ctes, inSum);
      ExprSettles(p, having, tables, ctes, inSum);
      ItemsSettle(p, items, tables, ctes, inSum);
      if group.By? { KeysSettle(p, group.keys, tables, ctes, inSum); }
    case Union(l, r, _) => RewriteSettles(p, l, ctes, inSum); RewriteSettles(p, r, ctes, inSum);
    case With(_, def, body) => RewriteSettles(p, def, ctes, inSum); RewriteSettles(p, body, ctes, inSum);
  }

  lemma {:induction false} FromSettles(p: Pass, f: From, tables: map<string, string>, ctes: set<string>, inSum: bool)
    requires Stable(p)
    ensures FromSettled(p, RewriteFrom(p, f, tables, ctes, inSum), tables, ctes, inSum)
    decreases f
  {
    if f.src.Derived? { RewriteSettles(p, f.src.q, ctes, inSum); }
    if f.Join? {
      FromSettles(p, f.left, tables, ctes, inSum);
      ExprSettles(p, f.on, tables, ctes, inSum);
    }
  }

  lemma {:induction false} ItemsSettle(p: Pass, items: seq<Item>, tables: map<string, string>, ctes: set<string>, inSum: bool)
    requires Stable(p)
    ensures ItemsSettled(p, RewriteItems(p, items, tables, ctes, inSum), tables, ctes, inSum)
    decreases items
  {
    if items != [] {
      ExprSettles(p, items[0].e, tables, ctes, inSum);
      ItemsSettle(p, items[1..], tables, ctes, inSum);
      assert RewriteItems(p, items, tables, ctes, inSum)[1..] == RewriteItems(p, items[1..], tables, ctes, inSum);
    }
  }

  lemma {:induction false} KeySettles(p: Pass, key: GroupItem, tables: map<string, string>, ctes: set<string>, inSum: bool)
    requires Stable(p)
    ensures KeySettled(p, RewriteKey(p, key, tables, ctes, inSum), tables, ctes, inSum)
    decreases key
  {
    match key
    case ByExpr(x) => ExprSettles(p, x, tables, ctes, inSum);
    case ByName(_) =>
  }

  lemma {:induction false} KeysSettle(p: Pass, keys: seq<GroupItem>, tables: map<string, string>, ctes: set<string>, inSum: bool)
    requires Stable(p)
    ensures KeysSettled(p, RewriteKeys(p, keys, tables, ctes, inSum), tables, ctes, inSum)
    decreases keys
  {
    if keys != [] {
      KeySettles(p, keys[0], tables, ctes, inSum);
      KeysSettle(p, keys[1..], tables, ctes, inSum);
      assert RewriteKeys(p, keys, tables, ctes, inSum)[1..] == RewriteKeys(p, keys[1..], tables, ctes, inSum);
    }
  }
}
