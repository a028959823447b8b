/** A query or expression that never names an alias means the same whatever row that alias has. */
module AliasScope {
  import opened Seqs
  import opened Sql
  import opened Values

  // No column anywhere inside is qualified by `a`.

  predicate FreeOf(q: Query, a: string)
    decreases q, 1
  {
    match q
    case Select(from, where, group, having, _, items, _, _) =>
      FromFree(from, a) && ExprFree(where, a) && GroupingFree(group, a) && ExprFree(having, a) && ItemsFree(items, a)
    case Union(l, r, _) => FreeOf(l, a) && FreeOf(r, a)
    case With(_, def, body) => FreeOf(def, a) && FreeOf(body, a)
  }

  predicate FromFree(f: From, a: string)
    decreases f
  {
    match f
    case One(s, _) => SourceFree(s, a)
    case Join(l, _, s, _, on) => FromFree(l, a) && SourceFree(s, a) && ExprFree(on, a)
  }

  predicate SourceFree(s: Source, a: string)
    decreases s
  {
    s.Derived? ==> FreeOf(s.q, a)
  }

  predicate ExprFree(x: Expr, a: string)
    decreases x
  {
    match x
    case Lit(_) => true
    case Col(b, _) => b != a
    case Cmp(_, l, r) => ExprFree(l, a) && ExprFree(r, a)
    case InList(y, _) => ExprFree(y, a)
    case IsNull(y) => ExprFree(y, a)
    case Plus(l, r) => ExprFree(l, a) && ExprFree(r, a)
    case Cast(_, y) => ExprFree(y, a)
    case Paren(y) => ExprFree(y, a)
    case Not(y) => ExprFree(y, a)
    case And(l, r) => ExprFree(l, a) && ExprFree(r, a)
    case Or(l, r) => ExprFree(l, a) && ExprFree(r, a)
    case If(t, l, r) => ExprFree(t, a) && ExprFree(l, a) && ExprFree(r, a)
    case Agg(_, y) => ExprFree(y, a)
    case Exists(q) => FreeOf(q, a)
    case InQuery(y, q) => ExprFree(y, a) && FreeOf(q, a)
    case Scalar(q) => FreeOf(q, a)
  }

  predicate ItemsFree(items: seq<Item>, a: string)
    decreases items
  {
    items != [] ==> ExprFree(items[0].e, a) && ItemsFree(items[1..], a)
  }

  predicate GroupingFree(g: Grouping, a: string)
    decreases g
  {
    match g
    case Whole => true
    case By(keys) => KeysFree(keys, a)
  }

  predicate KeyFree(key: GroupItem, a: string)
    decreases key
  {
    match key
    case ByExpr(x) => ExprFree(x, a)
    case ByName(_) => true
  }

  predicate KeysFree(keys: seq<GroupItem>, a: string)
    decreases keys
  {
    keys != [] ==> KeyFree(keys[0], a) && KeysFree(keys[1..], a)
  }

  lemma {:induction false} KeysFreeAt(keys: seq<GroupItem>, i: nat, a: string)
    requires i < |keys| && KeysFree(keys, a)
    ensures KeyFree(keys[i], a)
  {
    if i > 0 { KeysFreeAt(keys[1..], i - 1, a); }
  }

  // Combinations that agree but for one alias.

  predicate Same(e: Env, f: Env, a: string) {
    e - {a} == f - {a}
  }

  predicate AllSame(s: seq<Env>, t: seq<Env>, a: string) {
    |s| == |t| && forall i :: 0 <= i < |s| ==> Same(s[i], t[i], a)
  }

  predicate GroupsSame(s: seq<seq<Env>>, t: seq<seq<Env>>, a: string) {
    |s| == |t| && forall i :: 0 <= i < |s| ==> AllSame(s[i], t[i], a)
  }

  lemma SameRow(e: Env, f: Env, a: string, b: string)
    requires Same(e, f, a) && b != a
    ensures RowOf(e, b) == RowOf(f, b)
  {
    assert RowOf(e, b) == RowOf(e - {a}, b) && RowOf(f, b) == RowOf(f - {a}, b);
  }

  lemma SameAbove(base: Env, base': Env, l: Env, a: string)
    requires Same(base, base', a)
    ensures Same(base + l, base' + l, a)
  {
    assert (base + l) - {a} == (base - {a}) + (l - {a});
    assert (base' + l) - {a} == (base' - {a}) + (l - {a});
  }

  lemma {:induction false} FilterSame(s: seq<Env>, t: seq<Env>, p: Env -> bool, p': Env -> bool, a: string)
    requires AllSame(s, t, a)
    requires forall i :: 0 <= i < |s| ==> p(s[i]) == p'(t[i])
    ensures AllSame(Filter(s, p), Filter(t, p'), a)
  {
    if s != [] {
      FilterSame(s[1..], t[1..], p, p', a);
    }
  }

  lemma {:induction false} FilterGroupsSame(s: seq<seq<Env>>, t: seq<seq<Env>>, p: seq<Env> -> bool, p': seq<Env> -> bool,
                                            a: string)
    requires GroupsSame(s, t, a)
    requires forall i :: 0 <= i < |s| ==> p(s[i]) == p'(t[i])
    ensures GroupsSame(Filter(s, p), Filter(t, p'), a)
  {
    if s != [] {
      FilterGroupsSame(s[1..], t[1..], p, p', a);
    }
  }

  lemma {:induction false} GroupsOfSame<K(!new)>(s: seq<Env>, t: seq<Env>, keyOf: Env -> K, a: string)
    requires AllSame(s, t, a)
    requires forall i :: 0 <= i < |s| ==> keyOf(s[i]) == keyOf(t[i])
    ensures GroupsSame(GroupsOf(s, keyOf), GroupsOf(t, keyOf), a)
  {
    assert Map(s, keyOf) == Map(t, keyOf);
    var ks := Distinct(Map(s, keyOf));
    forall i | 0 <= i < |ks| ensures AllSame(GroupsOf(s, keyOf)[i], GroupsOf(t, keyOf)[i], a) {
      FilterSame(s, t, Having(keyOf, ks[i]), Having(keyOf, ks[i]), a);
    }
  }

  // The value of an expression, and the rows of a query, do not depend on an alias they never name.

  lemma {:induction false} EvalSame(x: Expr, c: Context, e: Env, f: Env, g: seq<Env>, h: seq<Env>, a: string)
    requires ExprFree(x, a) && Same(e, f, a) && AllSame(g, h, a)
    ensures Eval(x, c, e, g) == Eval(x, c, f, h)
    decreases x
  {
    match x
    case Lit(_) =>
    case Col(b, _) => SameRow(e, f, a, b);
    case Cmp(_, l, r) => EvalSame(l, c, e, f, g, h, a); EvalSame(r, c, e, f, g, h, a);
    case InList(y, _) => EvalSame(y, c, e, f, g, h, a);
    case IsNull(y) => EvalSame(y, c, e, f, g, h, a);
    case Plus(l, r) => EvalSame(l, c, e, f, g, h, a); EvalSame(r, c, e, f, g, h, a);
    case Cast(_, y) => EvalSame(y, c, e, f, g, h, a);
    case Paren(y) => EvalSame(y, c, e, f, g, h, a);
    case Not(y) => EvalSame(y, c, e, f, g, h, a);
    case And(l, r) => EvalSame(l, c, e, f, g, h, a); EvalSame(r, c, e, f, g, h, a);
    case Or(l, r) => EvalSame(l, c, e, f, g, h, a); EvalSame(r, c, e, f, g, h, a);
    case If(t, l, r) =>
      EvalSame(t, c, e, f, g, h, a); EvalSame(l, c, e, f, g, h, a); EvalSame(r, c, e, f, g, h, a);
    case Agg(_, y) =>
      forall i | 0 <= i < |g| ensures ValueOf(y, c)(g[i]) == ValueOf(y, c)(h[i]) {
        EvalSame(y, c, g[i], h[i], [], [], a);
      }
      assert Map(g, ValueOf(y, c)) == Map(h, ValueOf(y, c));
    case Exists(q) => RowsSame(q, c, e, f, a);
    case InQuery(y, q) => EvalSame(y, c, e, f, g, h, a); RowsSame(q, c, e, f, a);
    case Scalar(q) => RowsSame(q, c, e, f, a);
  }

  lemma {:induction false} SourceSame(s: Source, c: Context, base: Env, base': Env, a: string)
    requires SourceFree(s, a) && Same(base, base', a)
    ensures SourceRows(s, c, base) == SourceRows(s, c, base')
    decreases s
  {
    match s
    case Named(_) =>
    case Derived(q) => RowsSame(q, c, base, base', a);
  }

  lemma {:induction false} FromSame(f: From, c: Context, base: Env, base': Env, a: string)
    requires FromFree(f, a) && Same(base, base', a)
    ensures FromRows(f, c, base) == FromRows(f, c, base')
    decreases f
  {
    match f
    case One(s, _) => SourceSame(s, c, base, base', a);
    case Join(l, k, s, b, on) =>
      FromSame(l, c, base, base', a);
      SourceSame(s, c, base, base', a);
      forall e ensures HoldsAbove(on, c, base)(e) == HoldsAbove(on, c, base')(e) {
        SameAbove(base, base', e, a);
        EvalSame(on, c, base + e, base' + e, [], [], a);
      }
      JoinRowsCong(k, FromRows(l, c, base), b, SourceRows(s, c, base), HoldsAbove(on, c, base), HoldsAbove(on, c, base'));
  }

  lemma {:induction false} KeptSame(q: Query, c: Context, outer: Env, outer': Env, a: string)
    requires q.Select? && FreeOf(q, a) && Same(outer, outer', a)
    ensures Same(Visible(q, outer), Visible(q, outer'), a)
    ensures AllSame(Kept(q, c, outer), Kept(q, c, outer'), a)
    decreases q, 0
  {
    var base, base' := Visible(q, outer), Visible(q, outer');
    assert base - {a} == (outer - {a}) - Aliases(q.from) && base' - {a} == (outer' - {a}) - Aliases(q.from);
    FromSame(q.from, c, base, base', a);
    var froms := FromRows(q.from, c, base);
    var s, t := Map(froms, Above(base)), Map(froms, Above(base'));
    forall i | 0 <= i < |s| ensures Same(s[i], t[i], a) && Holds(q.where, c)(s[i]) == Holds(q.where, c)(t[i]) {
      SameAbove(base, base', froms[i], a);
      EvalSame(q.where, c, s[i], t[i], [], [], a);
    }
    FilterSame(s, t, Holds(q.where, c), Holds(q.where, c), a);
  }

  lemma {:induction false} OutputSame(items: seq<Item>, c: Context, e: Env, f: Env, g: seq<Env>, h: seq<Env>, a: string)
    requires ItemsFree(items, a) && Same(e, f, a) && AllSame(g, h, a)
    ensures OutputRow(items, c, e, g) == OutputRow(items, c, f, h)
    decreases items
  {
    if items != [] {
      EvalSame(items[0].e, c, e, f, g, h, a);
      OutputSame(items[1..], c, e, f, g, h, a);
    }
  }

  lemma {:induction false} NamedValueSame(items: seq<Item>, n: string, c: Context, e: Env, f: Env, a: string)
    requires ItemsFree(items, a) && Same(e, f, a)
    ensures NamedValue(items, n, c, e) == NamedValue(items, n, c, f)
    decreases items
  {
    if items != [] {
      EvalSame(items[0].e, c, e, f, [], [], a);
      NamedValueSame(items[1..], n, c, e, f, a);
    }
  }

  lemma {:induction false} KeySame(q: Query, c: Context, e: Env, f: Env, a: string)
    requires q.Select? && q.group.By? && KeysFree(q.group.keys, a) && ItemsFree(q.items, a) && Same(e, f, a)
    ensures GroupKey(q, c)(e) == GroupKey(q, c)(f)
    decreases q, 0
  {
    forall i | 0 <= i < |q.group.keys| ensures GroupValue(q, i, c, e) == GroupValue(q, i, c, f) {
      KeysFreeAt(q.group.keys, i, a);
      match q.group.keys[i]
      case ByExpr(x) => EvalSame(x, c, e, f, [], [], a);
      case ByName(n) => NamedValueSame(q.items, n, c, e, f, a);
    }
  }

  /** A select's own alias hides the enclosing one, so only an alias it does not declare can differ in `*`. */
  lemma StarSame(f: From, e: Env, e': Env, a: string)
    requires Same(e, e', a) && a !in Aliases(f)
    ensures StarRow(f, e) == StarRow(f, e')
  {
    match f
    case One(_, b) => SameRow(e, e', a, b);
    case Join(l, _, _, b, _) => StarSame(l, e, e', a); SameRow(e, e', a, b);
  }

  lemma {:induction false} ProjectedSame(q: Query, c: Context, outer: Env, outer': Env, a: string)
    requires q.Select? && FreeOf(q, a) && Same(outer, outer', a)
    ensures Projected(q, c, outer) == Projected(q, c, outer')
    decreases q, 2
  {
    var base, base' := Visible(q, outer), Visible(q, outer');
    if a in Aliases(q.from) {
      assert base == base' by {
        assert base == (outer - {a}) - Aliases(q.from) && base' == (outer' - {a}) - Aliases(q.from);
      }
    } else {
      KeptSame(q, c, outer, outer', a);
      var s, t := Kept(q, c, outer), Kept(q, c, outer');
      if Collapses(q) {
        GroupedSame(q, c, base, base', s, t, a);
      } else {
        forall i | 0 <= i < |s| ensures PlainRow(q, c)(s[i]) == PlainRow(q, c)(t[i]) {
          OutputSame(q.items, c, s[i], t[i], [], [], a);
          StarSame(q.from, s[i], t[i], a);
        }
        assert Map(s, PlainRow(q, c)) == Map(t, PlainRow(q, c));
      }
    }
  }

  lemma {:induction false} GroupedSame(q: Query, c: Context, base: Env, base': Env, s: seq<Env>, t: seq<Env>, a: string)
    requires q.Select? && FreeOf(q, a) && Same(base, base', a) && AllSame(s, t, a)
    ensures Map(Filter(Groups(q, c, s), HavingHolds(q, c, base)), GroupRow(q, c, base))
         == Map(Filter(Groups(q, c, t), HavingHolds(q, c, base')), GroupRow(q, c, base'))
    decreases q, 1
  {
    var gs, hs := Groups(q, c, s), Groups(q, c, t);
    if q.group.By? {
      forall i | 0 <= i < |s| ensures GroupKey(q, c)(s[i]) == GroupKey(q, c)(t[i]) {
        KeySame(q, c, s[i], t[i], a);
      }
      GroupsOfSame(s, t, GroupKey(q, c), a);
    }
    assert GroupsSame(gs, hs, a);
    forall i | 0 <= i < |gs| ensures HavingHolds(q, c, base)(gs[i]) == HavingHolds(q, c, base')(hs[i]) {
      assert Same(Representative(gs[i], base), Representative(hs[i], base'), a);
      EvalSame(q.having, c, Representative(gs[i], base), Representative(hs[i], base'), gs[i], hs[i], a);
    }
    FilterGroupsSame(gs, hs, HavingHolds(q, c, base), HavingHolds(q, c, base'), a);
    var us, vs := Filter(gs, HavingHolds(q, c, base)), Filter(hs, HavingHolds(q, c, base'));
    forall i | 0 <= i < |us| ensures GroupRow(q, c, base)(us[i]) == GroupRow(q, c, base')(vs[i]) {
      OutputSame(q.items, c, Representative(us[i], base), Representative(vs[i], base'), us[i], vs[i], a);
    }
    assert Map(us, GroupRow(q, c, base)) == Map(vs, GroupRow(q, c, base'));
  }

  lemma {:induction false} RowsSame(q: Query, c: Context, outer: Env, outer': Env, a: string)
    requires FreeOf(q, a) && Same(outer, outer', a)
    ensures Rows(q, c, outer) == Rows(q, c, outer')
    decreases q, 3
  {
    match q
    case Select(_, _, _, _, _, _, _, _) => ProjectedSame(q, c, outer, outer', a);
    case Union(l, r, _) => RowsSame(l, c, outer, outer', a); RowsSame(r, c, outer, outer', a);
    case With(name, def, body) =>
      RowsSame(def, c, outer, outer', a);
      RowsSame(body, c.(ctes := c.ctes[name := Rows(def, c, outer)]), outer, outer', a);
  }
}
