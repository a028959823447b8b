/**
 Row-key inference over derived sources (app/semantics/grain.py): columns of the output
 no two rows agree on, and whether a join on them can repeat the rows it joins.

 Main results: `RowKeysSound`, that no two rows of a source agree on its inferred keys at
 any depth of grouping, DISTINCT and renaming, and `JoinsOnce`, that a source joined on
 all of them meets each combination of the other sources at most once.
 */
module RowKeys {
  import opened Seqs
  import opened Sql
  import opened Values

  /** Key columns; None stands for a key no output column names. */
  type Keys = set<Option<string>>

  /** The keys of the CTEs in scope; a CTE of raw rows has none. */
  type Scopes = map<string, Option<Keys>>

  /** The first output column that is exactly `x`. */
  function NameOf(items: seq<Item>, x: Expr): Option<string> {
    if items == [] then None
    else if items[0].e == x then Some(items[0].name)
    else NameOf(items[1..], x)
  }

  /** The first output column that passes a column of this name on. */
  function Renamed(items: seq<Item>, column: string): Option<string> {
    if items == [] then None
    else if items[0].e.Col? && items[0].e.name == column then Some(items[0].name)
    else Renamed(items[1..], column)
  }

  function KeyName(items: seq<Item>, key: GroupItem): Option<string> {
    match key
    case ByName(n) => Some(n)
    case ByExpr(x) =>
      var shown := NameOf(items, x);
      if shown.Some? then shown else if x.Col? then Some(x.name) else None
  }

  function OutputName(item: Item): Option<string> {
    if item.name == "" then None else Some(item.name)
  }

  predicate IsScope(s: Source, scopes: Scopes) {
    s.Derived? || s.table in scopes
  }

  function RowKeysOf(q: Query, scopes: Scopes): Option<Keys>
    decreases q
  {
    match q
    case Union(_, _, _) => None
    case With(name, def, body) => RowKeysOf(body, scopes[name := RowKeysOf(def, scopes)])
    case Select(from, _, group, _, star, items, distinct, _) =>
      if group.By? then Some(set key | key in group.keys :: KeyName(items, key))
      else if distinct then
        Some((set item | item in items :: OutputName(item)) + if star then {Some("*")} else {})
      else if AnyAgg(items) then Some({})
      else if from.Join? || !IsScope(from.src, scopes) then None
      else
        var inner := if from.src.Derived? then RowKeysOf(from.src.q, scopes) else scopes[from.src.table];
        if inner.None? || star then inner
        else if exists key :: key in inner.value && key.Some? && Renamed(items, key.value).None? then None
        else Some(set key | key in inner.value :: if key.None? then None else Renamed(items, key.value))
  }

  /** Keys are found of every select that makes its rows differ: by grouping, by DISTINCT, or by being one row. */
  lemma KeysFound(q: Query, scopes: Scopes)
    requires q.Select? && (q.group.By? || q.distinct || AnyAgg(q.items))
    ensures RowKeysOf(q, scopes).Some?
    ensures q.group.By? ==> forall key :: key in q.group.keys && key.ByName? ==> Some(key.name) in RowKeysOf(q, scopes).value
    ensures q.group.By? ==> forall key, i :: key in q.group.keys && key.ByExpr? && 0 <= i < |q.items| && q.items[i].e == key.e ==>
      exists j :: 0 <= j <= i && q.items[j].e == key.e && Some(q.items[j].name) in RowKeysOf(q, scopes).value
    ensures q.group.Whole? && q.distinct && !q.star ==>
      forall k :: k in RowKeysOf(q, scopes).value <==> exists i :: 0 <= i < |q.items| && k == OutputName(q.items[i])
    ensures q.group.Whole? && !q.distinct ==> RowKeysOf(q, scopes) == Some({})
  {
    if q.group.By? {
      forall key, i | key in q.group.keys && key.ByExpr? && 0 <= i < |q.items| && q.items[i].e == key.e
        ensures exists j :: 0 <= j <= i && q.items[j].e == key.e && Some(q.items[j].name) in RowKeysOf(q, scopes).value
      {
        var j := FirstShown(q.items, key.e, i);
        assert KeyName(q.items, key) == Some(q.items[j].name);
      }
    }
  }

  lemma {:induction false} FirstShown(items: seq<Item>, x: Expr, i: nat) returns (j: nat)
    requires i < |items| && items[i].e == x
    ensures j <= i && items[j].e == x && NameOf(items, x) == Some(items[j].name)
  {
    j := 0;
    if items[0].e != x {
      var m := FirstShown(items[1..], x, i - 1);
      j := m + 1;
    }
  }

  // What the inferred keys promise.

  predicate Differ(r: Row, s: Row, keys: Keys) {
    exists key :: key in keys && key.Some? && Get(r, key.value) != Get(s, key.value)
  }

  predicate Unique(rows: seq<Row>, keys: Keys) {
    forall i, j :: 0 <= i < j < |rows| ==> Differ(rows[i], rows[j], keys)
  }

  predicate KeysHold(keys: Option<Keys>, rows: seq<Row>) {
    keys.Some? && None !in keys.value ==> Unique(rows, keys.value)
  }

  predicate ScopesHold(scopes: Scopes, c: Context) {
    forall n :: n in scopes ==> n in c.ctes && KeysHold(scopes[n], c.ctes[n])
  }

  predicate NamesDistinct(items: seq<Item>) {
    forall i, j :: 0 <= i < j < |items| ==> items[i].name != items[j].name
  }

  /** A GROUP BY entry some output column carries. */
  predicate KeyShown(items: seq<Item>, key: GroupItem) {
    match key
    case ByExpr(x) => !HasAgg(x) && NameOf(items, x).Some?
    case ByName(n) => exists i :: 0 <= i < |items| && items[i].name == n && !HasAgg(items[i].e)
  }

  /**
   The inferred keys are columns the query outputs: every GROUP BY entry is selected, output
   names are distinct, and a select that passes a source on passes that source's own columns.
   */
  predicate Shown(q: Query, scopes: Scopes)
    decreases q
  {
    match q
    case Union(_, _, _) => true
    case With(name, def, body) => Shown(def, scopes) && Shown(body, scopes[name := RowKeysOf(def, scopes)])
    case Select(from, _, group, _, star, items, distinct, _) =>
      if group.By? then NamesDistinct(items) && forall key :: key in group.keys ==> KeyShown(items, key)
      else if distinct then !star
      else if AnyAgg(items) || from.Join? || !IsScope(from.src, scopes) then true
      else
        && (from.src.Derived? ==> Shown(from.src.q, scopes))
        && (star ==> forall i :: 0 <= i < |items| ==>
              items[i].name !in (if from.src.Derived? then KnownNames(RowKeysOf(from.src.q, scopes))
                                 else KnownNames(scopes[from.src.table])))
        && (!star ==> NamesDistinct(items) && forall i :: 0 <= i < |items| && items[i].e.Col? ==> items[i].e.alias == from.alias)
  }

  function KnownNames(keys: Option<Keys>): set<string> {
    if keys.None? then {} else set key | key in keys.value && key.Some? :: key.value
  }

  // Values of output columns.

  /** Without an aggregate, an expression does not look at its group. */
  lemma {:induction false} NoAggIgnoresGroup(x: Expr, c: Context, e: Env, g: seq<Env>)
    requires !HasAgg(x)
    ensures Eval(x, c, e, g) == Eval(x, c, e, [])
  {
    match x
    case Cmp(_, l, r) => NoAggIgnoresGroup(l, c, e, g); NoAggIgnoresGroup(r, c, e, g);
    case InList(y, _) => NoAggIgnoresGroup(y, c, e, g);
    case IsNull(y) => NoAggIgnoresGroup(y, c, e, g);
    case Plus(l, r) => NoAggIgnoresGroup(l, c, e, g); NoAggIgnoresGroup(r, c, e, g);
    case Cast(_, y) => NoAggIgnoresGroup(y, c, e, g);
    case Paren(y) => NoAggIgnoresGroup(y, c, e, g);
    case Not(y) => NoAggIgnoresGroup(y, c, e, g);
    case And(l, r) => NoAggIgnoresGroup(l, c, e, g); NoAggIgnoresGroup(r, c, e, g);
    case Or(l, r) => NoAggIgnoresGroup(l, c, e, g); NoAggIgnoresGroup(r, c, e, g);
    case If(t, l, r) =>
      NoAggIgnoresGroup(t, c, e, g); NoAggIgnoresGroup(l, c, e, g); NoAggIgnoresGroup(r, c, e, g);
    case InQuery(y, _) => NoAggIgnoresGroup(y, c, e, g);
    case _ =>
  }

  lemma {:induction false} OutputAt(items: seq<Item>, i: nat, c: Context, e: Env, g: seq<Env>)
    requires i < |items| && forall k :: 0 <= k < i ==> items[k].name != items[i].name
    ensures Get(OutputRow(items, c, e, g), items[i].name) == Eval(items[i].e, c, e, g)
  {
    if i > 0 {
      OutputAt(items[1..], i - 1, c, e, g);
    }
  }

  lemma {:induction false} NameOfAt(items: seq<Item>, x: Expr) returns (i: nat)
    requires NameOf(items, x).Some?
    ensures i < |items| && items[i].e == x && NameOf(items, x) == Some(items[i].name)
  {
    if items[0].e == x {
      i := 0;
    } else {
      i := NameOfAt(items[1..], x);
      i := i + 1;
    }
  }

  lemma {:induction false} RenamedAt(items: seq<Item>, column: string) returns (i: nat)
    requires Renamed(items, column).Some?
    ensures i < |items| && items[i].e.Col? && items[i].e.name == column && Renamed(items, column) == Some(items[i].name)
  {
    if items[0].e.Col? && items[0].e.name == column {
      i := 0;
    } else {
      i := RenamedAt(items[1..], column);
      i := i + 1;
    }
  }

  lemma {:induction false} NamedAt(items: seq<Item>, n: string, c: Context, e: Env, g: seq<Env>)
    requires NamesDistinct(items) && KeyShown(items, ByName(n))
    ensures Get(OutputRow(items, c, e, g), n) == NamedValue(items, n, c, e)
  {
    var i :| 0 <= i < |items| && items[i].name == n && !HasAgg(items[i].e);
    NamedValueAt(items, i, c, e);
    OutputAt(items, i, c, e, g);
    NoAggIgnoresGroup(items[i].e, c, e, g);
  }

  lemma {:induction false} NamedValueAt(items: seq<Item>, i: nat, c: Context, e: Env)
    requires i < |items| && forall k :: 0 <= k < i ==> items[k].name != items[i].name
    ensures NamedValue(items, items[i].name, c, e) == Eval(items[i].e, c, e, [])
  {
    if i > 0 { NamedValueAt(items[1..], i - 1, c, e); }
  }

  /** A shown GROUP BY entry is an inferred key, and its output column holds the grouped value. */
  lemma KeyColumn(q: Query, m: nat, c: Context, e: Env, g: seq<Env>)
    requires q.Select? && q.group.By? && m < |q.group.keys|
    requires NamesDistinct(q.items) && KeyShown(q.items, q.group.keys[m])
    ensures var name := KeyName(q.items, q.group.keys[m]);
            name.Some? && Get(OutputRow(q.items, c, e, g), name.value) == GroupKey(q, c)(e)[m]
  {
    match q.group.keys[m]
    case ByExpr(x) =>
      var i := NameOfAt(q.items, x);
      OutputAt(q.items, i, c, e, g);
      NoAggIgnoresGroup(x, c, e, g);
    case ByName(n) => NamedAt(q.items, n, c, e, g);
  }

  // Soundness.

  function Differing(keys: Keys): (Row, Row) -> bool { (r: Row, s: Row) => Differ(r, s, keys) }

  function Apart<K(==)>(keyOf: Env -> K): (seq<Env>, seq<Env>) -> bool {
    (g: seq<Env>, h: seq<Env>) => g != [] && h != [] && keyOf(g[0]) != keyOf(h[0])
  }

  lemma {:induction false} GroupsApart<K(!new)>(kept: seq<Env>, keyOf: Env -> K)
    ensures Pairwise(GroupsOf(kept, keyOf), Apart(keyOf))
  {
    var ks := Distinct(Map(kept, keyOf));
    forall i | 0 <= i < |ks| ensures GroupsOf(kept, keyOf)[i] != [] && keyOf(GroupsOf(kept, keyOf)[i][0]) == ks[i] {
      GroupHead(kept, keyOf, ks[i]);
    }
  }

  lemma DifferSomewhere<T>(a: seq<T>, b: seq<T>)
    requires |a| == |b|
    ensures (forall m :: 0 <= m < |a| ==> a[m] == b[m]) ==> a == b
  {
  }

  lemma {:induction false} GroupedRowsDiffer(q: Query, c: Context, base: Env, g: seq<Env>, h: seq<Env>)
    requires q.Select? && q.group.By? && Shown(q, map[])
    requires Apart(GroupKey(q, c))(g, h)
    ensures Differ(GroupRow(q, c, base)(g), GroupRow(q, c, base)(h),
                   set key | key in q.group.keys :: KeyName(q.items, key))
  {
    var a, b := GroupKey(q, c)(g[0]), GroupKey(q, c)(h[0]);
    DifferSomewhere(a, b);
    var m :| 0 <= m < |a| && a[m] != b[m];
    var key := q.group.keys[m];
    KeyColumn(q, m, c, g[0], g);
    KeyColumn(q, m, c, h[0], h);
    assert KeyName(q.items, key) in set key | key in q.group.keys :: KeyName(q.items, key);
  }

  lemma {:induction false} GroupedSound(q: Query, c: Context, outer: Env)
    requires q.Select? && q.group.By? && Shown(q, map[])
    ensures Unique(Projected(q, c, outer), set key | key in q.group.keys :: KeyName(q.items, key))
  {
    var keys := set key | key in q.group.keys :: KeyName(q.items, key);
    var base, kept := Visible(q, outer), Kept(q, c, outer);
    var groups := GroupsOf(kept, GroupKey(q, c));
    GroupsApart(kept, GroupKey(q, c));
    FilterPairwise(groups, HavingHolds(q, c, base), Apart(GroupKey(q, c)));
    forall g, h | Apart(GroupKey(q, c))(g, h)
      ensures Differing(keys)(GroupRow(q, c, base)(g), GroupRow(q, c, base)(h))
    {
      GroupedRowsDiffer(q, c, base, g, h);
    }
    MapPairwise(Filter(groups, HavingHolds(q, c, base)), GroupRow(q, c, base), Apart(GroupKey(q, c)), Differing(keys));
    var rows := Projected(q, c, outer);
    forall i, j | 0 <= i < j < |rows| ensures Differ(rows[i], rows[j], keys) {
      assert Differing(keys)(rows[i], rows[j]);
    }
  }

  function Names(items: seq<Item>): set<string> {
    set item | item in items :: item.name
  }

  lemma ProjectedNames(q: Query, c: Context, outer: Env)
    requires q.Select? && !q.star
    ensures forall r :: r in Projected(q, c, outer) ==> r.Keys == Names(q.items)
  {
    var base := Visible(q, outer);
    forall g ensures GroupRow(q, c, base)(g).Keys == Names(q.items) {
    }
    forall e ensures PlainRow(q, c)(e).Keys == Names(q.items) {
      assert map[] + OutputRow(q.items, c, e, []) == OutputRow(q.items, c, e, []);
    }
  }

  lemma RowsDiffer(r: Row, s: Row, items: seq<Item>)
    requires r.Keys == s.Keys == Names(items) && r != s
    requires None !in (set item | item in items :: OutputName(item))
    ensures Differ(r, s, set item | item in items :: OutputName(item))
  {
    var n :| n in r.Keys && r[n] != s[n];
    var item :| item in items && item.name == n;
    assert OutputName(item) in (set item | item in items :: OutputName(item));
  }

  /** Rows that differ differ in a column, and every row of a select has the same columns. */
  lemma {:induction false} DistinctSound(q: Query, c: Context, outer: Env)
    requires q.Select? && !q.star
    requires None !in (set item | item in q.items :: OutputName(item))
    ensures Unique(Distinct(Projected(q, c, outer)), set item | item in q.items :: OutputName(item))
  {
    ProjectedNames(q, c, outer);
    var ds := Distinct(Projected(q, c, outer));
    forall i, j | 0 <= i < j < |ds| ensures Differ(ds[i], ds[j], set item | item in q.items :: OutputName(item)) {
      RowsDiffer(ds[i], ds[j], q.items);
    }
  }

  lemma {:induction false} UniqueIsDistinct(rows: seq<Row>, keys: Keys)
    requires Unique(rows, keys)
    ensures Distinct(rows) == rows
  {
    if rows != [] {
      var front, last := rows[..|rows| - 1], rows[|rows| - 1];
      UniqueIsDistinct(front, keys);
      forall i | 0 <= i < |front| ensures front[i] != last {
        assert Differ(rows[i], rows[|rows| - 1], keys);
      }
      assert front + [last] == rows;
    }
  }

  function DifferingAt(alias: string, keys: Keys): (Env, Env) -> bool {
    (e: Env, f: Env) => Differ(RowOf(e, alias), RowOf(f, alias), keys)
  }

  /** The combinations of a select over one source differ as the source's rows do. */
  lemma {:induction false} OneSourceApart(q: Query, c: Context, outer: Env, keys: Keys)
    requires q.Select? && q.from.One?
    requires Unique(SourceRows(q.from.src, c, Visible(q, outer)), keys)
    ensures Pairwise(Kept(q, c, outer), DifferingAt(q.from.alias, keys))
  {
    var base, a := Visible(q, outer), q.from.alias;
    var rows := SourceRows(q.from.src, c, base);
    forall i, j | 0 <= i < j < |rows| ensures Differing(keys)(rows[i], rows[j]) {
    }
    assert Pairwise(rows, Differing(keys));
    MapPairwise(rows, Extend(map[], a), Differing(keys), DifferingAt(a, keys));
    var froms := FromRows(q.from, c, base);
    assert a !in base;
    forall e, f | DifferingAt(a, keys)(e, f) ensures DifferingAt(a, keys)(Above(base)(e), Above(base)(f)) {
      assert RowOf(base + e, a) == RowOf(e, a) && RowOf(base + f, a) == RowOf(f, a);
    }
    MapPairwise(froms, Above(base), DifferingAt(a, keys), DifferingAt(a, keys));
    FilterPairwise(Map(froms, Above(base)), Holds(q.where, c), DifferingAt(a, keys));
  }

  predicate Passes(q: Query) {
    q.Select? && q.group.Whole? && !q.distinct && !AnyAgg(q.items) && q.from.One?
  }

  /** A passed-on key keeps its values under the name the select gives it. */
  lemma {:induction false} PassedColumn(q: Query, c: Context, e: Env, key: string)
    requires Passes(q) && !q.star && NamesDistinct(q.items) && Renamed(q.items, key).Some?
    requires forall i :: 0 <= i < |q.items| && q.items[i].e.Col? ==> q.items[i].e.alias == q.from.alias
    ensures Get(PlainRow(q, c)(e), Renamed(q.items, key).value) == Get(RowOf(e, q.from.alias), key)
  {
    var i := RenamedAt(q.items, key);
    OutputAt(q.items, i, c, e, []);
    assert map[] + OutputRow(q.items, c, e, []) == OutputRow(q.items, c, e, []);
  }

  lemma {:induction false} StarColumn(q: Query, c: Context, e: Env, key: string)
    requires Passes(q) && q.star && forall i :: 0 <= i < |q.items| ==> q.items[i].name != key
    ensures Get(PlainRow(q, c)(e), key) == Get(RowOf(e, q.from.alias), key)
  {
    assert key !in OutputRow(q.items, c, e, []);
  }

  function InnerKeys(q: Query, scopes: Scopes): Option<Keys>
    requires Passes(q) && IsScope(q.from.src, scopes)
  {
    if q.from.src.Derived? then RowKeysOf(q.from.src.q, scopes) else scopes[q.from.src.table]
  }

  lemma {:induction false} PassedRowsDiffer(q: Query, scopes: Scopes, c: Context, e: Env, f: Env)
    requires Passes(q) && IsScope(q.from.src, scopes) && Shown(q, scopes)
    requires RowKeysOf(q, scopes).Some? && None !in RowKeysOf(q, scopes).value
    requires InnerKeys(q, scopes).Some? && DifferingAt(q.from.alias, InnerKeys(q, scopes).value)(e, f)
    ensures Differ(PlainRow(q, c)(e), PlainRow(q, c)(f), RowKeysOf(q, scopes).value)
  {
    var inner := InnerKeys(q, scopes).value;
    var a := q.from.alias;
    var key :| key in inner && key.Some? && Get(RowOf(e, a), key.value) != Get(RowOf(f, a), key.value);
    if q.star {
      assert key.value in KnownNames(InnerKeys(q, scopes));
      StarColumn(q, c, e, key.value);
      StarColumn(q, c, f, key.value);
    } else {
      assert Renamed(q.items, key.value).Some?;
      PassedColumn(q, c, e, key.value);
      PassedColumn(q, c, f, key.value);
      assert Renamed(q.items, key.value) in RowKeysOf(q, scopes).value;
    }
  }

  lemma {:induction false} PassedSound(q: Query, scopes: Scopes, c: Context, outer: Env)
    requires Passes(q) && IsScope(q.from.src, scopes) && Shown(q, scopes)
    requires KeysHold(InnerKeys(q, scopes), SourceRows(q.from.src, c, Visible(q, outer)))
    ensures KeysHold(RowKeysOf(q, scopes), Projected(q, c, outer))
  {
    var keys := RowKeysOf(q, scopes);
    if q.having != TRUE {
      FilterLength(Groups(q, c, Kept(q, c, outer)), HavingHolds(q, c, Visible(q, outer)));
    } else if keys.Some? && None !in keys.value {
      var inner := InnerKeys(q, scopes);
      assert inner.Some?;
      assert None !in inner.value;
      OneSourceApart(q, c, outer, inner.value);
      forall e, f | DifferingAt(q.from.alias, inner.value)(e, f)
        ensures Differing(keys.value)(PlainRow(q, c)(e), PlainRow(q, c)(f))
      {
        PassedRowsDiffer(q, scopes, c, e, f);
      }
      var kept := Kept(q, c, outer);
      MapPairwise(kept, PlainRow(q, c), DifferingAt(q.from.alias, inner.value), Differing(keys.value));
      var rows := Projected(q, c, outer);
      forall i, j | 0 <= i < j < |rows| ensures Differ(rows[i], rows[j], keys.value) {
        assert Differing(keys.value)(rows[i], rows[j]);
      }
    }
  }

  /** No two rows of a query agree on its inferred keys. */
  lemma {:induction false} RowKeysSound(q: Query, scopes: Scopes, c: Context, outer: Env)
    requires Shown(q, scopes) && ScopesHold(scopes, c)
    ensures KeysHold(RowKeysOf(q, scopes), Rows(q, c, outer))
    decreases q, 1
  {
    match q
    case Union(_, _, _) =>
    case With(name, def, body) =>
      RowKeysSound(def, scopes, c, outer);
      RowKeysSound(body, scopes[name := RowKeysOf(def, scopes)], c.(ctes := c.ctes[name := Rows(def, c, outer)]), outer);
    case Select(_, _, group, _, _, _, _, _) =>
      if group.By? { ByKeysSound(q, scopes, c, outer); } else { UngroupedSound(q, scopes, c, outer); }
  }

  lemma ByKeysSound(q: Query, scopes: Scopes, c: Context, outer: Env)
    requires Shown(q, scopes) && q.Select? && q.group.By?
    ensures KeysHold(RowKeysOf(q, scopes), Rows(q, c, outer))
  {
    GroupedSound(q, c, outer);
    UniqueIsDistinct(Projected(q, c, outer), RowKeysOf(q, scopes).value);
  }

  lemma {:induction false} UngroupedSound(q: Query, scopes: Scopes, c: Context, outer: Env)
    requires Shown(q, scopes) && ScopesHold(scopes, c) && q.Select? && q.group.Whole?
    ensures KeysHold(RowKeysOf(q, scopes), Rows(q, c, outer))
    decreases q, 0
  {
    if q.distinct {
      if RowKeysOf(q, scopes).Some? && None !in RowKeysOf(q, scopes).value {
        DistinctSound(q, c, outer);
      }
    } else if AnyAgg(q.items) {
      FilterLength(Groups(q, c, Kept(q, c, outer)), HavingHolds(q, c, Visible(q, outer)));
    } else if q.from.One? && IsScope(q.from.src, scopes) {
      if q.from.src.Derived? {
        RowKeysSound(q.from.src.q, scopes, c, Visible(q, outer));
      }
      PassedSound(q, scopes, c, outer);
    }
  }

  // Joining a source on its keys.

  /** Every equality of a condition, whatever it stands under; those in subqueries are not its own. */
  function Equalities(x: Expr): set<(Expr, Expr)> {
    match x
    case Lit(_) => {}
    case Col(_, _) => {}
    case Cmp(op, l, r) => (if op.Eq? then {(l, r)} else {}) + Equalities(l) + Equalities(r)
    case InList(y, _) => Equalities(y)
    case IsNull(y) => Equalities(y)
    case Plus(l, r) => Equalities(l) + Equalities(r)
    case Cast(_, y) => Equalities(y)
    case Paren(y) => Equalities(y)
    case Not(y) => Equalities(y)
    case And(l, r) => Equalities(l) + Equalities(r)
    case Or(l, r) => Equalities(l) + Equalities(r)
    case If(t, l, r) => Equalities(t) + Equalities(l) + Equalities(r)
    case Agg(_, y) => Equalities(y)
    case Exists(_) => {}
    case InQuery(y, _) => Equalities(y)
    case Scalar(_) => {}
  }

  /** The equalities ANDed into a condition. */
  function Conjuncts(x: Expr): set<(Expr, Expr)> {
    match x
    case And(l, r) => Conjuncts(l) + Conjuncts(r)
    case Paren(y) => Conjuncts(y)
    case Cmp(Eq, l, r) => {(l, r)}
    case _ => {}
  }

  /** The names of this alias's columns that an equality relates to some other alias's. */
  function JoinKeys(equalities: set<(Expr, Expr)>, alias: string): set<string> {
    (set p | p in equalities && p.0.Col? && p.1.Col? && p.0.alias == alias && p.1.alias != alias :: p.0.name)
    + (set p | p in equalities && p.0.Col? && p.1.Col? && p.1.alias == alias && p.0.alias != alias :: p.1.name)
  }

  /** Some key is missing from the join keys, so two rows may match one combination. */
  predicate RepeatsRows(keys: Option<Keys>, joinKeys: set<string>) {
    keys.None? || exists key :: key in keys.value && (key.None? || key.value !in joinKeys)
  }

  lemma {:induction false} ConjunctHolds(x: Expr, p: (Expr, Expr), c: Context, e: Env)
    requires IsTrue(Eval(x, c, e, [])) && p in Conjuncts(x)
    ensures Eval(p.0, c, e, []) == Eval(p.1, c, e, []) != Null
  {
    match x
    case And(l, r) =>
      if p in Conjuncts(l) { ConjunctHolds(l, p, c, e); } else { ConjunctHolds(r, p, c, e); }
    case Paren(y) => ConjunctHolds(y, p, c, e);
    case _ =>
  }

  /** Where the condition holds, a join key has the value of a column outside the source. */
  lemma {:induction false} JoinKeyFixed(x: Expr, alias: string, key: string, c: Context, e: Env, r: Row, s: Row)
    requires key in JoinKeys(Conjuncts(x), alias)
    requires IsTrue(Eval(x, c, e[alias := r], [])) && IsTrue(Eval(x, c, e[alias := s], []))
    ensures Get(r, key) == Get(s, key)
  {
    var p :| p in Conjuncts(x) && p.0.Col? && p.1.Col?
             && ((p.0.alias == alias && p.1.alias != alias && p.0.name == key)
                 || (p.1.alias == alias && p.0.alias != alias && p.1.name == key));
    ConjunctHolds(x, p, c, e[alias := r]);
    ConjunctHolds(x, p, c, e[alias := s]);
  }

  /**
   A source joined on all its keys, by equalities ANDed into the condition, meets each
   combination `e` of the other sources at most once.
   */
  lemma {:induction false} JoinsOnce(q: Query, scopes: Scopes, c: Context, base: Env, alias: string, on: Expr, e: Env)
    requires Shown(q, scopes) && ScopesHold(scopes, c)
    requires !RepeatsRows(RowKeysOf(q, scopes), JoinKeys(Conjuncts(on), alias))
    ensures |Matches(e, alias, Rows(q, c, base), HoldsAbove(on, c, base))| <= 1
  {
    RowKeysSound(q, scopes, c, base);
    var keys, rows, ok := RowKeysOf(q, scopes).value, Rows(q, c, base), HoldsAbove(on, c, base);
    forall i, j | 0 <= i < j < |rows| ensures !ok(Extend(e, alias)(rows[i])) || !ok(Extend(e, alias)(rows[j])) {
      OneOfPair(keys, c, base, alias, on, e, rows[i], rows[j]);
    }
    AtMostOneKept(Map(rows, Extend(e, alias)), ok);
  }

  lemma OneOfPair(keys: Keys, c: Context, base: Env, alias: string, on: Expr, e: Env, r: Row, s: Row)
    requires Differ(r, s, keys) && !RepeatsRows(Some(keys), JoinKeys(Conjuncts(on), alias))
    ensures !HoldsAbove(on, c, base)(e[alias := r]) || !HoldsAbove(on, c, base)(e[alias := s])
  {
    if HoldsAbove(on, c, base)(e[alias := r]) && HoldsAbove(on, c, base)(e[alias := s]) {
      var key :| key in keys && key.Some? && Get(r, key.value) != Get(s, key.value);
      AboveExtended(base, e, alias, r);
      AboveExtended(base, e, alias, s);
      JoinKeyFixed(on, alias, key.value, c, base + e, r, s);
    }
  }

  lemma AboveExtended(base: Env, e: Env, alias: string, r: Row)
    ensures base + e[alias := r] == (base + e)[alias := r]
  {
  }

  lemma {:induction false} AtMostOneKept<A(!new)>(s: seq<A>, p: A -> bool)
    requires forall i, j :: 0 <= i < j < |s| ==> !p(s[i]) || !p(s[j])
    ensures |Filter(s, p)| <= 1
  {
    if s != [] {
      AtMostOneKept(s[1..], p);
      if p(s[0]) {
        FilterNone(s[1..], p);
      }
    }
  }

  // Where the inference promises more than holds.

  /** The source gathers equalities from the whole select, not only those ANDed in. */
  lemma JoinKeysUnderOr(alias: string, key: string, other: string, column: string)
    requires alias != other
    ensures var on := Or(Cmp(Eq, Col(alias, key), Col(other, column)), TRUE);
      && JoinKeys(Equalities(on), alias) == {key} && JoinKeys(Conjuncts(on), alias) == {}
      && !RepeatsRows(Some({Some(key)}), JoinKeys(Equalities(on), alias))
      && forall c, base, e, rows: seq<Row> ::
           |Matches(e, alias, rows, HoldsAbove(on, c, base))| == |rows|
  {
    var l, r := Col(alias, key), Col(other, column);
    var on := Or(Cmp(Eq, l, r), TRUE);
    assert Equalities(l) == {} && Equalities(r) == {} && Equalities(TRUE) == {};
    assert Equalities(Cmp(Eq, l, r)) == {(l, r)};
    assert Equalities(on) == {(l, r)};
    assert (l, r) in Equalities(on);
    assert JoinKeys(Equalities(on), alias) == {key};
    forall c, base, e, rows: seq<Row>
      ensures |Matches(e, alias, rows, HoldsAbove(on, c, base))| == |rows|
    {
      forall x: Env ensures HoldsAbove(on, c, base)(x) {
        assert Eval(TRUE, c, base + x, []) == Bool(true);
      }
      FilterAll(Map(rows, Extend(e, alias)), HoldsAbove(on, c, base));
    }
  }

  /** SELECT o.key AS key FROM (inner) d, in a query that has its own `o`. */
  function Correlated(inner: Query, key: string): Query {
    Select(One(Derived(inner), "d"), TRUE, Whole, TRUE, false, [Item(key, Col("o", key))], false, None)
  }

  lemma PlainRows(q: Query, c: Context, outer: Env)
    requires Passes(q) && q.where == TRUE && q.having == TRUE && q.limit.None?
    ensures Rows(q, c, outer) == Map(Map(FromRows(q.from, c, Visible(q, outer)), Above(Visible(q, outer))), PlainRow(q, c))
  {
    var froms := Map(FromRows(q.from, c, Visible(q, outer)), Above(Visible(q, outer)));
    forall e | e in froms ensures Holds(TRUE, c)(e) {
      assert Eval(TRUE, c, e, []) == Bool(true);
    }
    FilterAll(froms, Holds(TRUE, c));
    assert Kept(q, c, outer) == froms;
    assert !Collapses(q);
    assert Rows(q, c, outer) == Projected(q, c, outer);
  }

  lemma PassedKeys(q: Query, inner: Query, key: string)
    requires Passes(q) && !q.star && q.from.src == Derived(inner)
    requires RowKeysOf(inner, map[]) == Some({Some(key)}) && Renamed(q.items, key) == Some(key)
    ensures RowKeysOf(q, map[]) == Some({Some(key)})
  {
    var keys := RowKeysOf(q.from.src.q, map[]).value;
    assert Some(key) in keys && forall k :: k in keys ==> k == Some(key);
    assert (set k | k in keys :: if k.None? then None else Renamed(q.items, k.value)) == {Some(key)};
  }

  lemma CorrelatedKeys(inner: Query, key: string)
    requires RowKeysOf(inner, map[]) == Some({Some(key)})
    ensures Passes(Correlated(inner, key)) && RowKeysOf(Correlated(inner, key), map[]) == Some({Some(key)})
  {
    var q := Correlated(inner, key);
    assert !HasAgg(q.items[0].e);
    PassedKeys(q, inner, key);
  }

  lemma CorrelatedRow(inner: Query, key: string, c: Context, e: Env)
    ensures Get(PlainRow(Correlated(inner, key), c)(e), key) == Get(RowOf(e, "o"), key)
  {
    var q := Correlated(inner, key);
    OutputAt(q.items, 0, c, e, []);
    assert map[] + OutputRow(q.items, c, e, []) == OutputRow(q.items, c, e, []);
  }

  /** A column of an enclosing query passes for the source's own, though it never varies. */
  lemma CorrelatedColumn(inner: Query, key: string, c: Context, outer: Env)
    requires RowKeysOf(inner, map[]) == Some({Some(key)})
    requires |Rows(inner, c, outer - {"d"})| >= 2
    ensures RowKeysOf(Correlated(inner, key), map[]) == Some({Some(key)})
    ensures !Unique(Rows(Correlated(inner, key), c, outer), {Some(key)})
  {
    CorrelatedKeys(inner, key);
    CorrelatedValue(inner, key, c, outer, 0);
    CorrelatedValue(inner, key, c, outer, 1);
    var rows := Rows(Correlated(inner, key), c, outer);
    assert !Differ(rows[0], rows[1], {Some(key)});
  }

  lemma CorrelatedValue(inner: Query, key: string, c: Context, outer: Env, i: nat)
    requires RowKeysOf(inner, map[]) == Some({Some(key)}) && i < |Rows(inner, c, outer - {"d"})|
    ensures |Rows(Correlated(inner, key), c, outer)| == |Rows(inner, c, outer - {"d"})|
    ensures Get(Rows(Correlated(inner, key), c, outer)[i], key) == Get(RowOf(outer - {"d"}, "o"), key)
  {
    var q, base := Correlated(inner, key), outer - {"d"};
    assert Visible(q, outer) == base;
    CorrelatedKeys(inner, key);
    PlainRows(q, c, outer);
    CorrelatedRow(inner, key, c, Map(FromRows(q.from, c, base), Above(base))[i]);
  }

  /** SELECT y.n AS n FROM ... GROUP BY x.n, y.n */
  predicate HalfShown(q: Query, x: string, y: string, n: string) {
    && q.Select? && x != y && q.having == TRUE && !q.distinct && q.limit.None?
    && q.group == By([ByExpr(Col(x, n)), ByExpr(Col(y, n))]) && q.items == [Item(n, Col(y, n))]
  }

  lemma HalfShownKeys(q: Query, x: string, y: string, n: string)
    requires HalfShown(q, x, y, n)
    ensures RowKeysOf(q, map[]) == Some({Some(n)})
  {
    assert q.items[1..] == [];
    assert NameOf(q.items, Col(x, n)) == NameOf(q.items[1..], Col(x, n)) == None;
    assert NameOf(q.items, Col(y, n)) == Some(n);
    assert q.group.keys[0] in q.group.keys;
    assert (set key | key in q.group.keys :: KeyName(q.items, key)) == {Some(n)};
  }

  /** Each row of a grouped select without HAVING comes from the group of one key. */
  lemma GroupedRow(q: Query, c: Context, outer: Env, i: nat)
    requires q.Select? && q.group.By? && q.having == TRUE && !q.distinct && q.limit.None?
    ensures var ks := Distinct(Map(Kept(q, c, outer), GroupKey(q, c)));
      && |Rows(q, c, outer)| == |ks|
      && (i < |ks| ==>
            var g := Filter(Kept(q, c, outer), Having(GroupKey(q, c), ks[i]));
            g != [] && GroupKey(q, c)(g[0]) == ks[i] && Rows(q, c, outer)[i] == OutputRow(q.items, c, g[0], g))
  {
    var base, kept, keyOf := Visible(q, outer), Kept(q, c, outer), GroupKey(q, c);
    var groups := GroupsOf(kept, keyOf);
    forall g ensures HavingHolds(q, c, base)(g) {
      assert Eval(TRUE, c, Representative(g, base), g) == Bool(true);
    }
    FilterAll(groups, HavingHolds(q, c, base));
    assert Collapses(q) && Groups(q, c, kept) == groups;
    assert Projected(q, c, outer) == Map(groups, GroupRow(q, c, base));
    assert Rows(q, c, outer) == Projected(q, c, outer);
    var ks := Distinct(Map(kept, keyOf));
    if i < |ks| {
      GroupHead(kept, keyOf, ks[i]);
    }
  }

  lemma HalfShownRow(q: Query, x: string, y: string, n: string, c: Context, outer: Env, e: Env) returns (i: nat)
    requires HalfShown(q, x, y, n) && e in Kept(q, c, outer)
    ensures var ks := Distinct(Map(Kept(q, c, outer), GroupKey(q, c)));
            i < |ks| == |Rows(q, c, outer)| && ks[i] == GroupKey(q, c)(e)
    ensures Get(Rows(q, c, outer)[i], n) == Get(RowOf(e, y), n)
  {
    var kept, keyOf := Kept(q, c, outer), GroupKey(q, c);
    var ks := Distinct(Map(kept, keyOf));
    MapIn(kept, keyOf, e);
    i :| 0 <= i < |ks| && ks[i] == keyOf(e);
    GroupedRow(q, c, outer, i);
    var g := Filter(kept, Having(keyOf, ks[i]));
    OutputAt(q.items, 0, c, g[0], g);
    HalfShownKey(q, x, y, n, c, g[0]);
    HalfShownKey(q, x, y, n, c, e);
  }

  lemma HalfShownKey(q: Query, x: string, y: string, n: string, c: Context, e: Env)
    requires HalfShown(q, x, y, n)
    ensures GroupKey(q, c)(e) == [Get(RowOf(e, x), n), Get(RowOf(e, y), n)]
  {
    assert q.group.keys[0] == ByExpr(Col(x, n)) && q.group.keys[1] == ByExpr(Col(y, n));
    assert GroupValue(q, 0, c, e) == Eval(Col(x, n), c, e, []) == Get(RowOf(e, x), n);
    assert GroupValue(q, 1, c, e) == Eval(Col(y, n), c, e, []) == Get(RowOf(e, y), n);
  }

  /** A GROUP BY column that is not selected is taken for the output column of the same name. */
  lemma UnselectedKey(q: Query, x: string, y: string, n: string, c: Context, outer: Env, e: Env, f: Env)
    requires HalfShown(q, x, y, n) && e in Kept(q, c, outer) && f in Kept(q, c, outer)
    requires Get(RowOf(e, x), n) != Get(RowOf(f, x), n) && Get(RowOf(e, y), n) == Get(RowOf(f, y), n)
    ensures RowKeysOf(q, map[]) == Some({Some(n)}) && !Unique(Rows(q, c, outer), {Some(n)})
  {
    HalfShownKeys(q, x, y, n);
    var i := HalfShownRow(q, x, y, n, c, outer, e);
    var k := HalfShownRow(q, x, y, n, c, outer, f);
    HalfShownKey(q, x, y, n, c, e);
    HalfShownKey(q, x, y, n, c, f);
    var rows := Rows(q, c, outer);
    assert i != k && !Differ(rows[i], rows[k], {Some(n)}) && !Differ(rows[k], rows[i], {Some(n)});
  }

  lemma MapIn<A(!new), B(!new)>(s: seq<A>, f: A -> B, x: A)
    requires x in s
    ensures f(x) in Map(s, f)
  {
    var i :| 0 <= i < |s| && s[i] == x;
    assert Map(s, f)[i] == f(x);
  }

  /** The group of a key that occurs is not empty and has that key. */
  lemma GroupHead<K(!new)>(kept: seq<Env>, keyOf: Env -> K, k: K)
    requires k in Map(kept, keyOf)
    ensures var g := Filter(kept, Having(keyOf, k)); g != [] && keyOf(g[0]) == k
  {
    var e :| e in kept && keyOf(e) == k;
    var g := Filter(kept, Having(keyOf, k));
    FilterIn(kept, Having(keyOf, k));
    assert e in g;
    assert g[0] in g;
  }
}
