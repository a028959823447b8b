/**
 When a CTE or derived table joined in a SELECT can repeat the rows beside it
 (app/semantics/grain.py): the source gathers every equality of the SELECT, wherever it
 stands, and asks whether they fix all the keys of the joined source.

 Main result: `KeptOnce`.  Wherever the source stands in the FROM list, and whether its keys
 are equated in WHERE or in an ON, rows the SELECT keeps that agree on every other alias carry
 one and the same row of it.  It holds of the equalities that are true wherever the source has
 a row; `RowKeys.JoinKeysUnderOr` and `SetOperationRepeats` show what the others let through.
 */
module RepeatedSources {
  import opened Seqs
  import opened Sql
  import opened Values
  import opened AliasScope
  import opened RowKeys
  import ColumnTrace
  import JoinPolicy

  // The equalities of one SELECT.

  function OnEqualities(f: From): set<(Expr, Expr)> {
    if f.One? then {} else OnEqualities(f.left) + Equalities(f.on)
  }

  function ItemEqualities(items: seq<Item>): set<(Expr, Expr)> {
    if items == [] then {} else Equalities(items[0].e) + ItemEqualities(items[1..])
  }

  function KeyEqualities(keys: seq<GroupItem>): set<(Expr, Expr)> {
    if keys == [] then {}
    else (if keys[0].ByExpr? then Equalities(keys[0].e) else {}) + KeyEqualities(keys[1..])
  }

  /** All of them, whatever clause they stand in and under whatever connective. */
  function SelectEqualities(q: Query): set<(Expr, Expr)>
    requires q.Select?
  {
    OnEqualities(q.from) + Equalities(q.where) + Equalities(q.having) + ItemEqualities(q.items)
    + if q.group.By? then KeyEqualities(q.group.keys) else {}
  }

  function EqualitiesAmong(terms: seq<Expr>): set<(Expr, Expr)> {
    set t | t in terms && t.Cmp? && t.op.Eq? :: (t.l, t.r)
  }

  /** Those true on every kept row in which `a` has a row of its own. */
  function HeldEqualities(q: Query, a: string): set<(Expr, Expr)>
    requires q.Select?
  {
    EqualitiesAmong(JoinPolicy.HeldTerms(q, a))
  }

  lemma {:induction false} TermCounted(x: Expr, t: Expr)
    requires t in JoinPolicy.Terms(x) && t.Cmp? && t.op.Eq?
    ensures (t.l, t.r) in Equalities(x)
  {
    match x
    case Paren(y) => TermCounted(y, t);
    case And(l, r) => if t in JoinPolicy.Terms(l) { TermCounted(l, t); } else { TermCounted(r, t); }
    case _ =>
  }

  lemma {:induction false} OnTermCounted(f: From, t: Expr)
    requires t in JoinPolicy.OnTerms(f) && t.Cmp? && t.op.Eq?
    ensures (t.l, t.r) in OnEqualities(f)
  {
    if t in JoinPolicy.Terms(f.on) { TermCounted(f.on, t); } else { OnTermCounted(f.left, t); }
  }

  /** The source counts each of them: where they fix every key, it reports no repeating either. */
  lemma HeldKeysCounted(q: Query, a: string, keys: Option<Keys>)
    requires q.Select? && !RepeatsRows(keys, JoinKeys(HeldEqualities(q, a), a))
    ensures !RepeatsRows(keys, JoinKeys(SelectEqualities(q), a))
  {
    forall p | p in HeldEqualities(q, a) ensures p in SelectEqualities(q) {
      var t :| t in JoinPolicy.HeldTerms(q, a) && t.Cmp? && t.op.Eq? && p == (t.l, t.r);
      if t in JoinPolicy.Terms(q.where) {
        TermCounted(q.where, t);
      } else {
        JoinPolicy.PresentIsOn(q.from, a, t);
        OnTermCounted(q.from, t);
      }
    }
  }

  // The joined source.

  function SourceKeys(s: Source, scopes: Scopes): Option<Keys> {
    match s
    case Derived(q) => RowKeysOf(q, scopes)
    case Named(t) => if t in scopes then scopes[t] else None
  }

  predicate SourceShown(s: Source, scopes: Scopes) {
    s.Derived? ==> Shown(s.q, scopes)
  }

  lemma SourceUnique(s: Source, scopes: Scopes, c: Context, base: Env)
    requires ScopesHold(scopes, c) && SourceShown(s, scopes)
    ensures KeysHold(SourceKeys(s, scopes), SourceRows(s, c, base))
  {
    if s.Derived? { RowKeysSound(s.q, scopes, c, base); }
  }

  lemma {:induction false} AliasRow(f: From, c: Context, base: Env, e: Env, a: string, s: Source)
    requires ColumnTrace.FromEach(f, c, base, e) && ColumnTrace.SourceOf(f, a) == Some(s) && a in e
    ensures e[a] in SourceRows(s, c, base)
  {
    if f.alias != a { AliasRow(f.left, c, base, e, a, s); }
  }

  lemma {:induction false} SourceAlias(f: From, a: string)
    requires ColumnTrace.SourceOf(f, a).Some?
    ensures a in Aliases(f)
  {
    if f.alias != a { SourceAlias(f.left, a); }
  }

  /** A held equality gives a key the value of a column of another alias. */
  lemma HeldKeyFixed(q: Query, a: string, key: string, c: Context, outer: Env, e: Env, f: Env)
    requires q.Select? && JoinPolicy.OnsScoped(q.from) && DistinctAliases(q.from) && a in Aliases(q.from)
    requires key in JoinKeys(HeldEqualities(q, a), a)
    requires e in Kept(q, c, outer) && f in Kept(q, c, outer) && a in e && a in f && Same(e, f, a)
    ensures Get(e[a], key) == Get(f[a], key)
  {
    var p :| p in HeldEqualities(q, a) && p.0.Col? && p.1.Col?
             && ((p.0.alias == a && p.1.alias != a && p.0.name == key)
                 || (p.1.alias == a && p.0.alias != a && p.1.name == key));
    var t :| t in JoinPolicy.HeldTerms(q, a) && t.Cmp? && t.op.Eq? && p == (t.l, t.r);
    JoinPolicy.HeldTermHolds(q, a, t, c, outer, e);
    JoinPolicy.HeldTermHolds(q, a, t, c, outer, f);
    SameRow(e, f, a, if p.0.alias == a then p.1.alias else p.0.alias);
    assert Eval(t.l, c, e, []) == Eval(t.r, c, e, []) && Eval(t.l, c, f, []) == Eval(t.r, c, f, []);
    assert Get(e[a], key) == Get(RowOf(e, a), key) && Get(f[a], key) == Get(RowOf(f, a), key);
  }

  predicate NoTwoAlike(rows: seq<Row>) {
    forall i, j :: 0 <= i < j < |rows| ==> rows[i] != rows[j]
  }

  lemma UniqueApart(rows: seq<Row>, keys: Keys)
    requires Unique(rows, keys)
    ensures NoTwoAlike(rows)
  {
    forall i, j | 0 <= i < j < |rows| ensures rows[i] != rows[j] {
      assert Differ(rows[i], rows[j], keys);
    }
  }

  /**
   A source whose keys are all equated with columns of other aliases, by equalities true wherever
   it has a row, contributes at most one of its rows to each combination of the other aliases.
   */
  lemma {:induction false} KeptOnce(q: Query, a: string, s: Source, scopes: Scopes, c: Context, outer: Env, e: Env, f: Env)
    requires q.Select? && JoinPolicy.OnsScoped(q.from) && DistinctAliases(q.from)
    requires ColumnTrace.SourceOf(q.from, a) == Some(s) && SourceShown(s, scopes) && ScopesHold(scopes, c)
    requires !RepeatsRows(SourceKeys(s, scopes), JoinKeys(HeldEqualities(q, a), a))
    requires e in Kept(q, c, outer) && f in Kept(q, c, outer) && a in e && a in f && Same(e, f, a)
    ensures e == f && NoTwoAlike(SourceRows(s, c, Visible(q, outer)))
  {
    var base := Visible(q, outer);
    var rows, keys := SourceRows(s, c, base), SourceKeys(s, scopes).value;
    SourceUnique(s, scopes, c, base);
    UniqueApart(rows, keys);
    SourceAlias(q.from, a);
    ColumnTrace.KeptEach(q, c, outer, e);
    ColumnTrace.KeptEach(q, c, outer, f);
    AliasRow(q.from, c, base, e, a, s);
    AliasRow(q.from, c, base, f, a, s);
    forall key | key in keys && key.Some? ensures Get(e[a], key.value) == Get(f[a], key.value) {
      HeldKeyFixed(q, a, key.value, c, outer, e, f);
    }
    OneRowPerKey(rows, keys, e[a], f[a]);
    SameAndEqual(e, f, a);
  }

  lemma SameAndEqual(e: Env, f: Env, a: string)
    requires Same(e, f, a) && a in e && a in f && e[a] == f[a]
    ensures e == f
  {
    assert e == (e - {a})[a := e[a]] && f == (f - {a})[a := f[a]];
  }

  lemma OneRowPerKey(rows: seq<Row>, keys: Keys, r: Row, s: Row)
    requires Unique(rows, keys) && r in rows && s in rows
    ensures r == s || Differ(r, s, keys)
  {
    var i :| 0 <= i < |rows| && rows[i] == r;
    var j :| 0 <= j < |rows| && rows[j] == s;
    if i < j {
      assert Differ(rows[i], rows[j], keys);
    } else if j < i {
      assert Differ(rows[j], rows[i], keys);
      var key :| key in keys && key.Some? && Get(rows[j], key.value) != Get(rows[i], key.value);
    }
  }

  // Set operations.

  /** A body that is one SELECT, whatever CTEs stand before it. */
  predicate Selects(q: Query) {
    q.Select? || (q.With? && Selects(q.body))
  }

  /** The verdict on a source: one that is no SELECT is never taken to repeat. */
  predicate TakenToRepeat(q: Query, scopes: Scopes, joinKeys: set<string>) {
    Selects(q) && RepeatsRows(RowKeysOf(q, scopes), joinKeys)
  }

  /** A UNION ALL of a query with itself is taken not to repeat, yet holds each of its rows twice. */
  lemma SetOperationRepeats(q: Query, scopes: Scopes, joinKeys: set<string>, c: Context, base: Env, i: nat)
    requires i < |Rows(q, c, base)|
    ensures var twice := Union(q, q, true);
      && !TakenToRepeat(twice, scopes, joinKeys)
      && |Rows(twice, c, base)| == 2 * |Rows(q, c, base)|
      && Rows(twice, c, base)[i] == Rows(twice, c, base)[|Rows(q, c, base)| + i] == Rows(q, c, base)[i]
  {
  }
}
