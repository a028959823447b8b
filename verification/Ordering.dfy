/**
 Where a descending order puts rows without a value (app/sql/ordering.py), the last rewrite made
 after the gates (app/sql/service.py).  A statement is a query with its ORDER BY, OFFSET and
 LIMIT, its keys as parsed: PostgreSQL puts NULL first in a bare DESC.

 Main results: `VerdictKept`, that all three rewrites after the gates keep their verdict;
 `ValuedRowsFirst`, that the answer of the rewritten statement holds a row without a value only
 after every row with one, where as written it starts with such a row (`FirstRow`); and
 `SameAnswers`, that with no value missing the answers are the same.
 */
module Ordering {
  import opened Seqs
  import opened Sql
  import opened Values
  import opened ColumnTrace
  import opened PostGates

  datatype OrderKey = OrderKey(key: GroupItem, desc: bool, nullsFirst: bool)

  /** The ORDER BY belongs to the query, or to the body of its WITH. */
  datatype Statement = Statement(q: Query, order: seq<OrderKey>, offset: Option<nat>, limit: Option<nat>)

  predicate IsCount(key: GroupItem) {
    key.ByExpr? && key.e.Agg? && (key.e.f.Count? || key.e.f.CountStar?)
  }

  /** COUNT is never NULL, and is left alone. */
  predicate Placed(k: OrderKey) {
    k.desc && k.nullsFirst && !IsCount(k.key)
  }

  function Last(order: seq<OrderKey>): (r: seq<OrderKey>)
    ensures |r| == |order|
    ensures forall i :: 0 <= i < |r| ==> r[i].key == order[i].key && r[i].desc == order[i].desc
    ensures forall i :: 0 <= i < |r| ==> (r[i].nullsFirst <==> order[i].nullsFirst && !Placed(order[i]))
  {
    seq(|order|, i requires 0 <= i < |order| => if Placed(order[i]) then order[i].(nullsFirst := false) else order[i])
  }

  predicate PicksRows(s: Statement) {
    s.offset.Some? || s.limit.Some?
  }

  /** `asked` is whether the text as written says NULLS FIRST anywhere. */
  function NullsLast(s: Statement, asked: bool): Statement {
    if asked || !PicksRows(s) then s else s.(order := Last(s.order))
  }

  // The gates on a statement, and the rewrites before this one.

  function Keys(order: seq<OrderKey>): seq<GroupItem> {
    if order == [] then [] else [order[0].key] + Keys(order[1..])
  }

  function RewriteOrder(p: Pass, order: seq<OrderKey>, tables: map<string, string>, ctes: set<string>): seq<OrderKey> {
    if order == [] then []
    else [order[0].(key := RewriteKey(p, order[0].key, tables, ctes, false))] + RewriteOrder(p, order[1..], tables, ctes)
  }

  /** The tables around the ORDER BY: those of its own SELECT, and none for a UNION. */
  function OrderTables(q: Query, ctes: set<string>): map<string, string> {
    match q
    case Select(from, _, _, _, _, _, _, _) => Direct(from, ctes)
    case Union(_, _, _) => map[]
    case With(_, _, body) => OrderTables(body, ctes)
  }

  function RewriteStatement(p: Pass, s: Statement, ctes: set<string>): Statement {
    s.(q := Rewrite(p, s.q, ctes, false), order := RewriteOrder(p, s.order, OrderTables(s.q, ctes), ctes))
  }

  /** What an ORDER BY reads is checked in the scope of its SELECT, and its equalities with that SELECT's. */
  ghost predicate OrderAdmitted(q: Query, keys: seq<GroupItem>, around: Around, scopes: Scopes, rules: Rules) {
    match q
    case Select(from, _, _, _, _, _, _, _) =>
      var here := Within(from, scopes, around);
      var pairs := KeyPairs(keys, here, rules.catalog);
      && KeysAdmitted(keys, here, scopes, rules)
      && forall i :: 0 <= i < |pairs| ==> PairAdmitted(pairs[i], SelectPairs(q, here, rules.catalog), rules)
    case Union(_, _, _) => KeysAdmitted(keys, around, scopes, rules)
    case With(name, def, body) => OrderAdmitted(body, keys, around, Bind(name, def, scopes), rules)
  }

  ghost predicate StatementAdmitted(s: Statement, rules: Rules) {
    Admitted(s.q, Outside, Top, rules) && OrderAdmitted(s.q, Keys(s.order), Outside, Top, rules)
  }

  lemma {:induction false} RewriteOrderAlike(p: Pass, order: seq<OrderKey>, tables: map<string, string>, ctes: set<string>)
    ensures AlikeKeys(Keys(order), Keys(RewriteOrder(p, order, tables, ctes)))
  {
    if order != [] {
      RewriteKeyAlike(p, order[0].key, tables, ctes, false);
      RewriteOrderAlike(p, order[1..], tables, ctes);
      var rest := RewriteOrder(p, order[1..], tables, ctes);
      assert RewriteOrder(p, order, tables, ctes)[1..] == rest;
      assert Keys(order)[1..] == Keys(order[1..]) && Keys(RewriteOrder(p, order, tables, ctes))[1..] == Keys(rest);
    }
  }

  lemma {:induction false} OrderAlike(q: Query, r: Query, keys: seq<GroupItem>, others: seq<GroupItem>, a: Around, b: Around,
                                      s: Scopes, t: Scopes, rules: Rules)
    requires AlikeQueries(q, r) && AlikeKeys(keys, others) && AlikeAround(a, b) && AlikeScopes(s, t)
    ensures OrderAdmitted(r, others, b, t, rules) == OrderAdmitted(q, keys, a, s, rules)
  {
    match q
    case Select(from, _, _, _, _, _, _, _) =>
      var here, there := Within(from, s, a), Within(r.from, t, b);
      KeysAdmittedAlike(keys, others, here, there, s, t, rules);
      KeyPairsAlike(keys, others, here, there, rules.catalog);
      SelectPairsAlike(q, r, here, there, rules.catalog);
    case Union(_, _, _) => KeysAdmittedAlike(keys, others, a, b, s, t, rules);
    case With(name, def, body) =>
      OrderAlike(body, r.body, keys, others, a, b, Bind(name, def, s), Bind(name, r.def, t), rules);
  }

  lemma RewriteKeepsVerdict(p: Pass, s: Statement, ctes: set<string>, rules: Rules)
    ensures StatementAdmitted(RewriteStatement(p, s, ctes), rules) <==> StatementAdmitted(s, rules)
  {
    var r := RewriteStatement(p, s, ctes);
    RewriteIsAlike(p, s.q, ctes, false);
    RewriteOrderAlike(p, s.order, OrderTables(s.q, ctes), ctes);
    AdmittedAlike(s.q, r.q, Outside, Outside, Top, Top, rules);
    OrderAlike(s.q, r.q, Keys(s.order), Keys(r.order), Outside, Outside, Top, Top, rules);
  }

  lemma {:induction false} LastKeys(order: seq<OrderKey>)
    ensures Keys(Last(order)) == Keys(order)
  {
    if order != [] {
      assert Last(order)[1..] == Last(order[1..]);
      LastKeys(order[1..]);
    }
  }

  /** Respelling, then widening, then placing NULLs last: the gates would admit the outcome exactly when they admitted the input. */
  lemma VerdictKept(s: Statement, spelling: Known, single: Single, ctes: set<string>, asked: bool, rules: Rules)
    ensures var widened := RewriteStatement(Widen(single), RewriteStatement(Respell(spelling), s, ctes), ctes);
      StatementAdmitted(NullsLast(widened, asked), rules) <==> StatementAdmitted(s, rules)
  {
    var respelled := RewriteStatement(Respell(spelling), s, ctes);
    var widened := RewriteStatement(Widen(single), respelled, ctes);
    RewriteKeepsVerdict(Respell(spelling), s, ctes, rules);
    RewriteKeepsVerdict(Widen(single), respelled, ctes, rules);
    LastKeys(widened.order);
  }

  // What a statement answers: its rows in some order its keys allow, cut to OFFSET and LIMIT.

  /** A row of the query, with the values of the ORDER BY keys for it. */
  datatype Ranked = Ranked(row: Row, keys: seq<Value>)

  type RankedRows = seq<Ranked>

  predicate KeyBefore(k: OrderKey, v: Value, w: Value) {
    if v == Null || w == Null then v != w && (v == Null) == k.nullsFirst
    else if k.desc then Below(w, v) else Below(v, w)
  }

  /** The first key that tells the two rows apart decides. */
  predicate Precedes(order: seq<OrderKey>, v: seq<Value>, w: seq<Value>)
    requires |v| == |w| == |order|
  {
    order != [] &&
    (KeyBefore(order[0], v[0], w[0]) || (!KeyBefore(order[0], w[0], v[0]) && Precedes(order[1..], v[1..], w[1..])))
  }

  predicate Keyed(order: seq<OrderKey>, rows: RankedRows) {
    forall i :: 0 <= i < |rows| ==> |rows[i].keys| == |order|
  }

  predicate InOrder(order: seq<OrderKey>, rows: RankedRows)
    requires Keyed(order, rows)
  {
    forall i, j :: 0 <= i < j < |rows| ==> !Precedes(order, rows[j].keys, rows[i].keys)
  }

  function Skipped(s: Statement): nat { if s.offset.Some? then s.offset.value else 0 }

  function Cut(s: Statement, rows: RankedRows): RankedRows {
    var rest := if Skipped(s) <= |rows| then rows[Skipped(s)..] else [];
    if s.limit.Some? && s.limit.value <= |rest| then rest[..s.limit.value] else rest
  }

  /** `out` is an answer: `arranged` lists the query's rows in order, and `out` is cut from it. */
  predicate Answers(s: Statement, rows: RankedRows, arranged: RankedRows, out: RankedRows) {
    && multiset(arranged) == multiset(rows) && Keyed(s.order, arranged) && InOrder(s.order, arranged)
    && out == Cut(s, arranged)
  }

  // What the rewrite does to the answers.

  /** The rewritten statement's order has this key as its first, descending and possibly NULL. */
  predicate Descending(s: Statement) {
    (s.offset.Some? || s.limit.Some?) && s.order != [] && s.order[0].desc && s.order[0].nullsFirst && !IsCount(s.order[0].key)
  }

  predicate Valued(r: Ranked) {
    r.keys != [] && r.keys[0] != Null
  }

  lemma ValuedBefore(s: Statement, arranged: RankedRows, i: nat, j: nat)
    requires Descending(s) && Keyed(s.order, arranged) && InOrder(Last(s.order), arranged)
    requires i < |arranged| && j < |arranged| && !Valued(arranged[i])
    ensures Valued(arranged[j]) ==> j < i
  {
    assert Valued(arranged[j]) ==> Precedes(Last(s.order), arranged[j].keys, arranged[i].keys);
  }

  lemma ValuedWithin(s: Statement, arranged: RankedRows, i: nat, r: Ranked)
    requires Descending(s) && Keyed(s.order, arranged) && InOrder(Last(s.order), arranged)
    requires i < |arranged| && !Valued(arranged[i]) && Valued(r)
    ensures forall j :: i <= j < |arranged| ==> arranged[j] != r
  {
    forall j | i <= j < |arranged| ensures arranged[j] != r {
      ValuedBefore(s, arranged, i, j);
    }
  }

  lemma NoneLater(rows: RankedRows, first: nat, cut: nat, r: Ranked)
    requires first <= cut <= |rows| && forall j :: cut <= j < |rows| ==> rows[j] != r
    ensures multiset(rows[..first])[r] + multiset(rows[first..cut])[r] == multiset(rows)[r]
  {
    assert rows == rows[..first] + rows[first..cut] + rows[cut..];
    assert r !in rows[cut..];
  }

  lemma CutIs(s: Statement, rows: RankedRows)
    requires Cut(s, rows) != []
    ensures Skipped(s) + |Cut(s, rows)| <= |rows|
    ensures Cut(s, rows) == rows[Skipped(s)..Skipped(s) + |Cut(s, rows)|]
  {
  }

  lemma CutAt(s: Statement, rows: RankedRows, i: nat)
    requires i < |Cut(s, rows)|
    ensures Skipped(s) + i < |rows| && Cut(s, rows)[i] == rows[Skipped(s) + i]
  {
  }

  lemma CutHolds(s: Statement, rows: RankedRows, i: nat, r: Ranked)
    requires i < |Cut(s, rows)| && forall j :: Skipped(s) + i <= j < |rows| ==> rows[j] != r
    ensures Skipped(s) <= |rows| && multiset(rows[..Skipped(s)])[r] + multiset(Cut(s, rows))[r] == multiset(rows)[r]
  {
    CutIs(s, rows);
    NoneLater(rows, Skipped(s), Skipped(s) + |Cut(s, rows)|, r);
  }

  /**
   When the answer holds a row without a value for the first key, every row with one is in it too,
   as often as the query has it, or was skipped by the OFFSET.
   */
  lemma ValuedRowsFirst(s: Statement, rows: RankedRows, arranged: RankedRows, out: RankedRows, r: Ranked)
    requires Descending(s) && Answers(NullsLast(s, false), rows, arranged, out)
    requires (exists i :: 0 <= i < |out| && !Valued(out[i])) && Valued(r)
    ensures Skipped(s) <= |arranged| && multiset(arranged[..Skipped(s)])[r] + multiset(out)[r] == multiset(rows)[r]
  {
    var i :| 0 <= i < |out| && !Valued(out[i]);
    CutAt(s, arranged, i);
    ValuedWithin(s, arranged, Skipped(s) + i, r);
    CutHolds(s, arranged, i, r);
  }

  lemma ArrangedHolds(rows: RankedRows, arranged: RankedRows, r: Ranked)
    requires multiset(arranged) == multiset(rows)
    ensures r in arranged <==> r in rows
  {
    assert r in arranged <==> r in multiset(arranged);
  }

  /**
   The first row: with the order left as written it has no value as soon as one row of the query
   has none; rewritten, only when every row has none.
   */
  lemma FirstRow(s: Statement, asked: bool, rows: RankedRows, arranged: RankedRows, out: RankedRows)
    requires Descending(s) && Skipped(s) == 0 && Answers(NullsLast(s, asked), rows, arranged, out) && out != []
    ensures asked ==> (!Valued(out[0]) <==> exists r :: r in rows && !Valued(r))
    ensures !asked ==> (!Valued(out[0]) <==> forall r :: r in rows ==> !Valued(r))
  {
    assert out[0] == arranged[0];
    forall r ensures r in arranged <==> r in rows { ArrangedHolds(rows, arranged, r); }
    var order := NullsLast(s, asked).order;
    forall j | 0 < j < |arranged| && Valued(arranged[0]) != Valued(arranged[j]) ensures Valued(arranged[j]) == asked {
      assert !Precedes(order, arranged[j].keys, arranged[0].keys);
    }
    assert arranged[0] in arranged;
  }

  /** No earlier key tells the two rows apart. */
  predicate TieBefore(order: seq<OrderKey>, v: seq<Value>, w: seq<Value>, i: nat)
    requires |v| == |w| == |order| && i <= |order|
  {
    forall j :: 0 <= j < i ==> !KeyBefore(order[j], v[j], w[j]) && !KeyBefore(order[j], w[j], v[j])
  }

  /** By any descending key but a COUNT, a row with a value precedes one without, where no earlier key tells them apart. */
  lemma {:induction false} ValuedPrecedes(order: seq<OrderKey>, v: seq<Value>, w: seq<Value>, i: nat)
    requires |v| == |w| == |order| && i < |order| && order[i].desc && !IsCount(order[i].key)
    requires TieBefore(Last(order), v, w, i) && v[i] != Null && w[i] == Null
    ensures Precedes(Last(order), v, w) && !Precedes(Last(order), w, v)
  {
    if i > 0 {
      assert Last(order)[1..] == Last(order[1..]);
      assert forall j :: 0 <= j < i - 1 ==> order[1..][j] == order[j + 1] && v[1..][j] == v[j + 1] && w[1..][j] == w[j + 1];
      forall j | 0 <= j < i - 1
        ensures !KeyBefore(Last(order[1..])[j], v[1..][j], w[1..][j]) && !KeyBefore(Last(order[1..])[j], w[1..][j], v[1..][j])
      {
        assert Last(order[1..])[j] == Last(order)[j + 1];
      }
      ValuedPrecedes(order[1..], v[1..], w[1..], i - 1);
    }
  }

  /** Where no row is picked, or the text asks for NULLS FIRST, and by ascending keys, the order is as written. */
  lemma LeftAsWritten(s: Statement, asked: bool, i: nat)
    requires i < |s.order|
    ensures asked || (s.offset.None? && s.limit.None?) ==> NullsLast(s, asked) == s
    ensures |NullsLast(s, asked).order| == |s.order| && (!s.order[i].desc ==> NullsLast(s, asked).order[i] == s.order[i])
  {
  }

  /** No row lacks a value for a key whose NULLs are moved. */
  predicate NothingMissing(order: seq<OrderKey>, rows: RankedRows)
    requires Keyed(order, rows)
  {
    forall i, k :: 0 <= i < |rows| && 0 <= k < |order| && Placed(order[k]) ==> rows[i].keys[k] != Null
  }

  lemma {:induction false} SamePrecedence(order: seq<OrderKey>, v: seq<Value>, w: seq<Value>)
    requires |v| == |w| == |order|
    requires forall k :: 0 <= k < |order| && Placed(order[k]) ==> v[k] != Null && w[k] != Null
    ensures Precedes(Last(order), v, w) == Precedes(order, v, w)
  {
    if order != [] {
      assert Last(order)[1..] == Last(order[1..]);
      SamePrecedence(order[1..], v[1..], w[1..]);
    }
  }

  /** With no value missing, the rewritten statement has the same answers. */
  lemma SameAnswers(s: Statement, asked: bool, rows: RankedRows, arranged: RankedRows, out: RankedRows)
    requires Keyed(s.order, arranged) && NothingMissing(s.order, arranged)
    ensures Answers(NullsLast(s, asked), rows, arranged, out) <==> Answers(s, rows, arranged, out)
  {
    forall i, j | 0 <= i < j < |arranged|
      ensures Precedes(Last(s.order), arranged[j].keys, arranged[i].keys) == Precedes(s.order, arranged[j].keys, arranged[i].keys)
    {
      SamePrecedence(s.order, arranged[j].keys, arranged[i].keys);
    }
  }
}
