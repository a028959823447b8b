/**
 A reader's choices for a report's filters (app/reports/filters.py): which filters are applied,
 which are skipped, and what the filtered query returns.

 Main result: `ApplyFilters`.  A filter something was picked for is applied exactly when its
 choice gives a predicate, no CTE has its table's name, and some SELECT without a RIGHT or FULL
 join reads the table; and where every read of the filtered tables is such a one, the query
 returns what the pinned one does on tables that keep the chosen rows.  Lemmas at the end show
 inputs on which a row to hide is still shown.
 */
module AppliedFilters {
  import opened Seqs
  import opened Sql
  import opened Values
  import opened ReportFilters
  import opened QueryNodes

  datatype FilteredSql = FilteredSql(query: Query, applied: seq<string>, skipped: seq<string>)

  predicate Picked(item: ReportFilter, choices: map<string, FilterChoice>) {
    item.id in choices && !choices[item.id].Empty()
  }

  function JobOf(q: Query, item: ReportFilter, choices: map<string, FilterChoice>): Job
    requires Picked(item, choices)
  {
    Job(item, choices[item.id], NamesCte(q, item.table))
  }

  /** The filters a reader picked something for, in the report's order. */
  function Active(q: Query, filters: seq<ReportFilter>, choices: map<string, FilterChoice>): seq<Job> {
    if filters == [] then []
    else
      var item := filters[|filters| - 1];
      Active(q, filters[..|filters| - 1], choices) + if Picked(item, choices) then [JobOf(q, item, choices)] else []
  }

  /** `ks` lists, in order, the filters something was picked for, all of them, and `active` pairs each with its choice. */
  predicate PickedAt(ks: seq<nat>, q: Query, filters: seq<ReportFilter>, choices: map<string, FilterChoice>, active: seq<Job>) {
    && |ks| == |active| && (forall m, n :: 0 <= m < n < |ks| ==> ks[m] < ks[n])
    && (forall n :: 0 <= n < |ks| ==>
          ks[n] < |filters| && Picked(filters[ks[n]], choices) && active[n] == JobOf(q, filters[ks[n]], choices))
    && (forall i :: 0 <= i < |filters| && Picked(filters[i], choices) ==> i in ks)
  }

  lemma PickedMore(ks: seq<nat>, q: Query, filters: seq<ReportFilter>, item: ReportFilter, choices: map<string, FilterChoice>,
                   active: seq<Job>)
    requires PickedAt(ks, q, filters, choices, active) && Picked(item, choices)
    ensures PickedAt(ks + [|filters|], q, filters + [item], choices, active + [JobOf(q, item, choices)])
  {
  }

  lemma PickedNoMore(ks: seq<nat>, q: Query, filters: seq<ReportFilter>, item: ReportFilter,
                     choices: map<string, FilterChoice>, active: seq<Job>)
    requires PickedAt(ks, q, filters, choices, active) && !Picked(item, choices)
    ensures PickedAt(ks, q, filters + [item], choices, active)
  {
  }

  lemma {:induction false} ActiveAt(q: Query, filters: seq<ReportFilter>, choices: map<string, FilterChoice>) returns (ks: seq<nat>)
    ensures PickedAt(ks, q, filters, choices, Active(q, filters, choices))
  {
    if filters == [] { return []; }
    var front, item := filters[..|filters| - 1], filters[|filters| - 1];
    assert filters == front + [item];
    ks := ActiveAt(q, front, choices);
    if Picked(item, choices) {
      PickedMore(ks, q, front, item, choices, Active(q, front, choices));
      ks := ks + [|front|];
    } else {
      PickedNoMore(ks, q, front, item, choices, Active(q, front, choices));
    }
  }

  function Ids(q: Query, jobs: seq<Job>, applied: bool): seq<string> {
    if jobs == [] then []
    else
      var j := jobs[|jobs| - 1];
      Ids(q, jobs[..|jobs| - 1], applied) + if Narrows(q, j) == applied then [j.item.id] else []
  }

  lemma {:induction false} OneMoreJob(q: Query, jobs: seq<Job>, j: Job)
    ensures ApplyAll(q, jobs + [j]) == if Narrows(q, j) then Apply(ApplyAll(q, jobs), j) else ApplyAll(q, jobs)
    ensures Ids(q, jobs + [j], true) == Ids(q, jobs, true) + if Narrows(q, j) then [j.item.id] else []
    ensures Ids(q, jobs + [j], false) == Ids(q, jobs, false) + if Narrows(q, j) then [] else [j.item.id]
    ensures Narrows(ApplyAll(q, jobs), j) == Narrows(q, j)
  {
    assert (jobs + [j])[..|jobs|] == jobs;
    ApplyAllKeeps(q, jobs, j);
    if !Narrows(q, j) {
      Untouched(ApplyAll(q, jobs), j);
    }
  }

  // What is applied, said of the pinned query's nodes.

  function JoinKinds(f: From): set<JoinKind> {
    if f.One? then {} else JoinKinds(f.left) + {f.kind}
  }

  function Sources(f: From): set<Source> {
    if f.One? then {f.src} else Sources(f.left) + {f.src}
  }

  predicate GivesPredicate(item: ReportFilter, choice: FilterChoice) {
    match item.kind
    case Values => choice.values != []
    case DateRange => choice.start.Some? || choice.end.Some?
  }

  /** A SELECT that reads the table and has no join that pads its left side. */
  predicate ReadsPlainly(n: Query, table: string) {
    n.Select? && Named(table) in Sources(n.from) && RightOuter !in JoinKinds(n.from) && FullOuter !in JoinKinds(n.from)
  }

  ghost predicate Narrowable(q: Query, item: ReportFilter, choice: FilterChoice) {
    && GivesPredicate(item, choice)
    && (forall n :: n in Nodes(q) && n.With? ==> n.name != item.table)
    && exists n :: n in Nodes(q) && ReadsPlainly(n, item.table)
  }

  /** The filters something was picked for that are applied, or those that are skipped. */
  ghost function Taken(q: Query, choices: map<string, FilterChoice>, applied: bool): ReportFilter -> bool {
    (item: ReportFilter) => Picked(item, choices) && Narrowable(q, item, choices[item.id]) == applied
  }

  function IdOf(): ReportFilter -> string { (item: ReportFilter) => item.id }

  lemma {:induction false} FromShape(f: From, table: string)
    ensures HasRight(f) <==> RightOuter in JoinKinds(f) || FullOuter in JoinKinds(f)
    ensures Reads(f, table) <==> Named(table) in Sources(f)
  {
    if f.Join? { FromShape(f.left, table); }
  }

  lemma NamesCteNode(q: Query, name: string)
    ensures NamesCte(q, name) <==> exists n :: n in Nodes(q) && n.With? && n.name == name
  {
    var p := (n: Query) => !(n.With? && n.name == name);
    AllNodes(q, p);
    assert NamesCte(q, name) == !All(q, p);
  }

  lemma NarrowsExactly(q: Query, item: ReportFilter, choices: map<string, FilterChoice>)
    requires Picked(item, choices)
    ensures Narrows(q, JobOf(q, item, choices)) <==> Narrowable(q, item, choices[item.id])
  {
    var j := JobOf(q, item, choices);
    NamesCteNode(q, item.table);
    AllNodes(q, Unnarrowed(j));
    assert Predicate(item, j.choice, "").Some? <==> GivesPredicate(item, j.choice);
    forall n | n in Nodes(q) && n.Select?
      ensures SelectNarrows(n, j) <==> !j.hidden && GivesPredicate(item, j.choice) && ReadsPlainly(n, item.table)
    {
      FromShape(n.from, item.table);
    }
  }

  lemma OneMoreKept(filters: seq<ReportFilter>, item: ReportFilter, keep: ReportFilter -> bool)
    ensures Filter(filters + [item], keep) == if keep(item) then Filter(filters, keep) + [item] else Filter(filters, keep)
  {
    FilterConcat(filters, [item], keep);
    assert Filter([item], keep) == if keep(item) then [item] else [];
  }

  /** The ids told apart by the loop are those of the filters that can narrow the query, and of the others picked. */
  lemma {:induction false} IdsAre(q: Query, filters: seq<ReportFilter>, choices: map<string, FilterChoice>, applied: bool)
    ensures Ids(q, Active(q, filters, choices), applied) == Map(Filter(filters, Taken(q, choices, applied)), IdOf())
  {
    if filters != [] {
      var front, item := filters[..|filters| - 1], filters[|filters| - 1];
      assert filters == front + [item];
      IdsAre(q, front, choices, applied);
      OneMoreKept(front, item, Taken(q, choices, applied));
      OneMoreActive(q, front, item, choices);
      if Picked(item, choices) {
        NarrowsExactly(q, item, choices);
        OneMoreJob(q, Active(q, front, choices), JobOf(q, item, choices));
      }
    }
  }

  lemma OneMoreActive(q: Query, filters: seq<ReportFilter>, item: ReportFilter, choices: map<string, FilterChoice>)
    ensures Active(q, filters + [item], choices)
         == if Picked(item, choices) then Active(q, filters, choices) + [JobOf(q, item, choices)] else Active(q, filters, choices)
  {
    assert (filters + [item])[..|filters|] == filters;
  }

  /** The skipped filters leave the query as it was. */
  lemma {:induction false} SkippedLeave(q: Query, filters: seq<ReportFilter>, choices: map<string, FilterChoice>)
    ensures ApplyAll(q, Active(q, filters, choices))
         == ApplyAll(q, Active(q, Filter(filters, Taken(q, choices, true)), choices))
  {
    if filters != [] {
      var front, item, keep := filters[..|filters| - 1], filters[|filters| - 1], Taken(q, choices, true);
      assert filters == front + [item];
      SkippedLeave(q, front, choices);
      OneMoreKept(front, item, keep);
      OneMoreApplied(q, front, item, choices);
      if keep(item) { OneMoreApplied(q, Filter(front, keep), item, choices); }
    }
  }

  lemma OneMoreApplied(q: Query, filters: seq<ReportFilter>, item: ReportFilter, choices: map<string, FilterChoice>)
    ensures ApplyAll(q, Active(q, filters + [item], choices))
         == if Taken(q, choices, true)(item) then Apply(ApplyAll(q, Active(q, filters, choices)), JobOf(q, item, choices))
            else ApplyAll(q, Active(q, filters, choices))
  {
    OneMoreActive(q, filters, item, choices);
    if Picked(item, choices) {
      NarrowsExactly(q, item, choices);
      OneMoreJob(q, Active(q, filters, choices), JobOf(q, item, choices));
    }
  }

  // What the filtered query returns.

  /** The row is one every filter of its table with something picked for it chooses. */
  predicate ChosenByPicks(table: string, filters: seq<ReportFilter>, choices: map<string, FilterChoice>, r: Row) {
    forall item :: item in filters && item.table == table && Picked(item, choices) ==> Chosen(item, choices[item.id], r)
  }

  function ByPicks(table: string, filters: seq<ReportFilter>, choices: map<string, FilterChoice>): Row -> bool {
    (r: Row) => ChosenByPicks(table, filters, choices, r)
  }

  function Reduced(tables: Tables, filters: seq<ReportFilter>, choices: map<string, FilterChoice>): Tables {
    map t | t in tables :: Filter(tables[t], ByPicks(t, filters, choices))
  }

  /** No CTE has the table's name, and no SELECT that reads it has a join padding its left side, or one alias twice. */
  predicate Clear(n: Query, table: string) {
    match n
    case Select(from, _, _, _, _, _, _, _) =>
      DistinctAliases(from) && (Named(table) in Sources(from) ==> RightOuter !in JoinKinds(from) && FullOuter !in JoinKinds(from))
    case Union(_, _, _) => true
    case With(name, _, _) => name != table
  }

  ghost predicate Reached(q: Query, filters: seq<ReportFilter>, choices: map<string, FilterChoice>, c: Context) {
    forall item :: item in filters && Picked(item, choices) ==>
      item.table !in c.ctes && forall n :: n in Nodes(q) ==> Clear(n, item.table)
  }

  lemma ClearReaches(q: Query, item: ReportFilter, choices: map<string, FilterChoice>, c: Context)
    requires Picked(item, choices) && item.table !in c.ctes && forall n :: n in Nodes(q) ==> Clear(n, item.table)
    ensures All(q, Reach(JobOf(q, item, choices))) && Ready(c, JobOf(q, item, choices))
  {
    var j := JobOf(q, item, choices);
    NamesCteNode(q, item.table);
    forall n | n in Nodes(q) ensures Reach(j)(n) && !(n.With? && n.name == item.table) {
      assert Clear(n, item.table);
      if n.Select? { FromShape(n.from, item.table); }
    }
    AllNodes(q, Reach(j));
  }

  lemma ChosenAlike(table: string, ks: seq<nat>, q: Query, filters: seq<ReportFilter>, choices: map<string, FilterChoice>,
                    active: seq<Job>, r: Row)
    requires PickedAt(ks, q, filters, choices, active)
    ensures ChosenByAll(table, active)(r) <==> ByPicks(table, filters, choices)(r)
  {
    if ChosenByAll(table, active)(r) {
      forall item | item in filters && item.table == table && Picked(item, choices) ensures Chosen(item, choices[item.id], r) {
        var i :| 0 <= i < |filters| && filters[i] == item;
        var n :| 0 <= n < |ks| && ks[n] == i;
        assert active[n] in active;
      }
    }
    if ByPicks(table, filters, choices)(r) {
      forall j | j in active && j.item.table == table ensures Chosen(j.item, j.choice, r) {
        var n :| 0 <= n < |active| && active[n] == j;
        assert filters[ks[n]] in filters;
      }
    }
  }

  lemma {:induction false} ReducedIs(tables: Tables, ks: seq<nat>, q: Query, filters: seq<ReportFilter>,
                                     choices: map<string, FilterChoice>, active: seq<Job>)
    requires PickedAt(ks, q, filters, choices, active)
    ensures RestrictAll(tables, active) == Reduced(tables, filters, choices)
  {
    forall t | t in tables ensures Filter(tables[t], ChosenByAll(t, active)) == Filter(tables[t], ByPicks(t, filters, choices)) {
      forall r | r in tables[t] ensures ChosenByAll(t, active)(r) == ByPicks(t, filters, choices)(r) {
        ChosenAlike(t, ks, q, filters, choices, active, r);
      }
      FilterCong(tables[t], ChosenByAll(t, active), ByPicks(t, filters, choices));
    }
  }

  lemma ReachesPicked(ks: seq<nat>, q: Query, filters: seq<ReportFilter>, choices: map<string, FilterChoice>,
                      active: seq<Job>, c: Context)
    requires PickedAt(ks, q, filters, choices, active) && Reached(q, filters, choices, c)
    ensures ReachesAll(q, active) && forall j :: j in active ==> Ready(c, j)
  {
    forall j | j in active ensures All(q, Reach(j)) && Ready(c, j) {
      var n :| 0 <= n < |active| && active[n] == j;
      assert filters[ks[n]] in filters;
      ClearReaches(q, filters[ks[n]], choices, c);
    }
  }

  lemma {:induction false} FilteredByPicks(q: Query, filters: seq<ReportFilter>, choices: map<string, FilterChoice>, c: Context,
                                           outer: Env)
    requires Reached(q, filters, choices, c)
    ensures Rows(ApplyAll(q, Active(q, filters, choices)), c, outer)
         == Rows(q, c.(tables := Reduced(c.tables, filters, choices)), outer)
  {
    var active := Active(q, filters, choices);
    var ks := ActiveAt(q, filters, choices);
    ReachesPicked(ks, q, filters, choices, active, c);
    AllFilteredRows(q, active, c, outer);
    ReducedIs(c.tables, ks, q, filters, choices, active);
  }

  method ActiveFilters(q: Query, filters: seq<ReportFilter>, choices: map<string, FilterChoice>)
    returns (active: seq<Job>)
    ensures active == Active(q, filters, choices) && exists ks :: PickedAt(ks, q, filters, choices, active)
  {
    active := [];
    for i := 0 to |filters|
      invariant active == Active(q, filters[..i], choices)
    {
      var item := filters[i];
      assert filters[..i + 1][..i] == filters[..i];
      if Picked(item, choices) {
        active := active + [JobOf(q, item, choices)];
      }
    }
    assert filters[..|filters|] == filters;
    ghost var ks := ActiveAt(q, filters, choices);
  }

  /** With no filter applied the query is the pinned one. */
  lemma {:induction false} NoneApplied(q: Query, jobs: seq<Job>)
    requires Ids(q, jobs, true) == []
    ensures ApplyAll(q, jobs) == q
  {
    if jobs != [] {
      var front, j := jobs[..|jobs| - 1], jobs[|jobs| - 1];
      assert front + [j] == jobs;
      OneMoreJob(q, front, j);
      NoneApplied(q, front);
    }
  }

  /**
   The filters are told apart by whether they can narrow the query as it was pinned.  Where all
   reads of the filtered tables are reached, or all reads of those the applied filters are on, the
   query returns what the pinned one does on tables that keep what those filters choose.
   */
  method ApplyFilters(q: Query, filters: seq<ReportFilter>, choices: map<string, FilterChoice>)
    returns (r: FilteredSql)
    ensures r.applied == Ids(q, Active(q, filters, choices), true)
    ensures r.skipped == Ids(q, Active(q, filters, choices), false)
    ensures r.query == ApplyAll(q, Active(q, filters, choices))
    ensures r.applied == Map(Filter(filters, Taken(q, choices, true)), IdOf())
    ensures r.skipped == Map(Filter(filters, Taken(q, choices, false)), IdOf())
    ensures forall c, outer :: Reached(q, filters, choices, c) ==>
      Rows(r.query, c, outer) == Rows(q, c.(tables := Reduced(c.tables, filters, choices)), outer)
    ensures var taken := Filter(filters, Taken(q, choices, true));
      forall c, outer :: Reached(q, taken, choices, c) ==>
        Rows(r.query, c, outer) == Rows(q, c.(tables := Reduced(c.tables, taken, choices)), outer)
  {
    var active := ActiveFilters(q, filters, choices);
    var query, applied, skipped := q, [], [];
    for i := 0 to |active|
      invariant query == ApplyAll(q, active[..i])
      invariant applied == Ids(q, active[..i], true) && skipped == Ids(q, active[..i], false)
    {
      OneMoreJob(q, active[..i], active[i]);
      assert active[..i + 1] == active[..i] + [active[i]];
      if Narrows(query, active[i]) {
        query := Apply(query, active[i]);
        applied := applied + [active[i].item.id];
      } else {
        skipped := skipped + [active[i].item.id];
      }
    }
    assert active[..|active|] == active;
    r := FilteredSql(query, applied, skipped);
    IdsAre(q, filters, choices, true);
    IdsAre(q, filters, choices, false);
    forall c, outer | Reached(q, filters, choices, c)
      ensures Rows(r.query, c, outer) == Rows(q, c.(tables := Reduced(c.tables, filters, choices)), outer)
    {
      FilteredByPicks(q, filters, choices, c, outer);
    }
    SkippedLeave(q, filters, choices);
    ghost var taken := Filter(filters, Taken(q, choices, true));
    forall c, outer | Reached(q, taken, choices, c)
      ensures Rows(r.query, c, outer) == Rows(q, c.(tables := Reduced(c.tables, taken, choices)), outer)
    {
      FilteredByPicks(q, taken, choices, c, outer);
    }
  }

  // Beside an outer join that pads the left side, a SELECT does not take the predicate.

  const ORDERS := ReportFilter("status", "orders", "status", Values)
  const PAID := FilterChoice(["paid"], None, None)

  /** SELECT o.status AS status FROM orders o RIGHT JOIN customers c ON TRUE */
  const RIGHT_JOINED := Select(Join(One(Named("orders"), "o"), RightOuter, Named("customers"), "c", TRUE), TRUE, Whole,
                               TRUE, false, [Item("status", Col("o", "status"))], false, None)

  const ONE_NEW_ORDER: Tables := map["orders" := [map["status" := Text("new")]], "customers" := [map[]]]

  lemma RightJoinFound(c: Context, order: Row)
    requires SourceRows(Named("orders"), c, map[]) == [order] && SourceRows(Named("customers"), c, map[]) == [map[]]
    ensures FromRows(RIGHT_JOINED.from, c, map[]) == [map["o" := order, "c" := map[]]]
  {
    var o: Env, ok := map["o" := order], HoldsAbove(TRUE, c, map[]);
    var both: Env := o["c" := map[]];
    assert FromRows(RIGHT_JOINED.from.left, c, map[]) == [o];
    assert Map([map[]], Extend(o, "c")) == [both] && ok(both) && o in [o];
    assert Matches(o, "c", [map[]], ok) == [both];
    assert FlatMap([o], InnerStep("c", [map[]], ok)) == [both] + FlatMap([], InnerStep("c", [map[]], ok));
    assert Matched(map[], "c", [o], ok);
    assert Unmatched([o], "c", [map[]], ok) == [];
  }

  lemma RightJoinMissing(c: Context)
    requires SourceRows(Named("orders"), c, map[]) == [] && SourceRows(Named("customers"), c, map[]) == [map[]]
    ensures FromRows(RIGHT_JOINED.from, c, map[]) == [map["c" := map[]]]
  {
    var ok := HoldsAbove(TRUE, c, map[]);
    assert FromRows(RIGHT_JOINED.from.left, c, map[]) == [];
    assert !Matched(map[], "c", [], ok);
    assert Filter([map[]], Lonely("c", [], ok)) == [map[]];
  }

  /** SELECT alias.column AS name FROM ..., where the FROM list yields one combination. */
  lemma OneColumnOneRow(q: Query, name: string, alias: string, column: string, c: Context, e: Env)
    requires q.Select? && q.where == TRUE && q.group == Whole && q.having == TRUE && !q.star
    requires q.items == [Item(name, Col(alias, column))] && !q.distinct && q.limit.None?
    requires FromRows(q.from, c, map[]) == [e]
    ensures Rows(q, c, map[]) == [map[name := Get(RowOf(e, alias), column)]]
  {
    OneKept(q, c, e);
    OneColumn(q, name, alias, column, c, e);
    assert !HasAgg(q.items[0].e) && !Collapses(q);
    assert Projected(q, c, map[]) == Map([e], PlainRow(q, c)) == [PlainRow(q, c)(e)];
  }

  lemma OneKept(q: Query, c: Context, e: Env)
    requires q.Select? && q.where == TRUE && FromRows(q.from, c, map[]) == [e]
    ensures Kept(q, c, map[]) == [e]
  {
    assert Visible(q, map[]) == map[];
    assert map[] + e == e && Holds(TRUE, c)(e);
    var froms := Map([e], Above(map[]));
    assert froms == [e] && Filter(froms, Holds(TRUE, c)) == [e];
  }

  lemma OneColumn(q: Query, name: string, alias: string, column: string, c: Context, e: Env)
    requires q.Select? && !q.star && q.items == [Item(name, Col(alias, column))]
    ensures PlainRow(q, c)(e) == map[name := Get(RowOf(e, alias), column)]
  {
    assert q.items[1..] == [];
    var row: Row := map[name := Get(RowOf(e, alias), column)];
    assert OutputRow(q.items, c, e, []) == OutputRow([], c, e, [])[name := Get(RowOf(e, alias), column)];
    assert OutputRow(q.items, c, e, []) == row && map[] + row == row;
  }

  /** One order that is not paid: the filter should hide its status, and does not. */
  lemma RightJoinIsNotFiltered(j: Job, c: Context)
    requires j == Job(ORDERS, PAID, false) && c == Context(ONE_NEW_ORDER, map[])
    ensures !All(RIGHT_JOINED, Reach(j)) && !Narrows(RIGHT_JOINED, j) && Apply(RIGHT_JOINED, j) == RIGHT_JOINED
    ensures Rows(RIGHT_JOINED, c, map[]) != Rows(RIGHT_JOINED, Restricted(c, j), map[])
  {
    RightJoinUntouched(j);
    RightJoinRows(c);
    RightJoinRestricted(j, c);
    RowsDiffer(Text("new"), Null);
  }

  /**
   In a UNION with such a branch the filter is reported as applied when another branch takes it,
   and this one stays as it was: the row to hide is still shown.
   */
  lemma UnionHidesTheSkip(q: Query, j: Job, c: Context)
    requires j == Job(ORDERS, PAID, false) && c == Context(ONE_NEW_ORDER, map[]) && Narrows(q, j)
    ensures var both := Union(q, RIGHT_JOINED, true);
      && Narrows(both, j) && Apply(both, j) == Union(Apply(q, j), RIGHT_JOINED, true)
      && map["status" := Text("new")] in Rows(Apply(both, j), c, map[])
      && Rows(Apply(both, j), c, map[]) != Rows(both, Restricted(c, j), map[])
  {
    RightJoinUntouched(j);
    RightJoinRows(c);
    RightJoinRestricted(j, c);
    UnionApplied(q, RIGHT_JOINED, j, c, Restricted(c, j));
    LastDiffers(Rows(Apply(q, j), c, map[]), Text("new"), Rows(q, Restricted(c, j), map[]), Null);
  }

  lemma UnionApplied(q: Query, r: Query, j: Job, c: Context, d: Context)
    requires Narrows(q, j) && Apply(r, j) == r
    ensures var both := Union(q, r, true);
      && Narrows(both, j) && Apply(both, j) == Union(Apply(q, j), r, true)
      && Rows(Apply(both, j), c, map[]) == Rows(Apply(q, j), c, map[]) + Rows(r, c, map[])
      && Rows(both, d, map[]) == Rows(q, d, map[]) + Rows(r, d, map[])
  {
  }

  lemma LastDiffers(a: seq<Row>, v: Value, b: seq<Row>, w: Value)
    requires v != w
    ensures a + [map["status" := v]] != b + [map["status" := w]]
    ensures map["status" := v] in a + [map["status" := v]]
  {
    var x, y: Row := map["status" := v], map["status" := w];
    assert x["status"] != y["status"];
    assert (a + [x])[|a|] == x && (b + [y])[|b|] == y;
  }

  // Nor does one that reads a table whose name a CTE of the query has.

  /** SELECT o.status AS status FROM orders o */
  const STATUSES := Select(One(Named("orders"), "o"), TRUE, Whole, TRUE, false, [Item("status", Col("o", "status"))], false, None)

  /** WITH orders AS (SELECT o.status AS status FROM orders o) SELECT o.status AS status FROM orders o */
  const SHADOWED := With("orders", STATUSES, STATUSES)

  /** One order that is not paid is shown, where over the restricted table there is none. */
  lemma CteIsNotFiltered(j: Job, c: Context)
    requires j == Job(ORDERS, PAID, NamesCte(SHADOWED, "orders")) && c == Context(ONE_NEW_ORDER, map[])
    ensures j.hidden && !Narrows(SHADOWED, j) && Apply(SHADOWED, j) == SHADOWED
    ensures Rows(SHADOWED, c, map[]) == [map["status" := Text("new")]]
    ensures Rows(SHADOWED, Restricted(c, j.(hidden := false)), map[]) == []
  {
    ShadowedNames();
    ShadowedUnnarrowed(j);
    Untouched(SHADOWED, j);
    ShadowedShown(c, map["status" := Text("new")]);
    ShadowedRestricted(c, j);
  }

  lemma ShadowedShown(c: Context, row: Row)
    requires c == Context(ONE_NEW_ORDER, map[]) && row == map["status" := Text("new")]
    ensures Rows(SHADOWED, c, map[]) == [row]
  {
    StatusesOfOne(c, row);
    StatusesOfOne(c.(ctes := c.ctes["orders" := [row]]), row);
  }

  lemma ShadowedRestricted(c: Context, j: Job)
    requires c == Context(ONE_NEW_ORDER, map[]) && j.item == ORDERS && j.choice == PAID
    ensures Rows(SHADOWED, Restricted(c, j.(hidden := false)), map[]) == []
  {
    var d := Restricted(c, j.(hidden := false));
    StatusesOfNone(d);
    StatusesOfNone(d.(ctes := d.ctes["orders" := []]));
  }

  lemma StatusesOfOne(c: Context, row: Row)
    requires SourceRows(Named("orders"), c, map[]) == [row] && row == map["status" := Text("new")]
    ensures Rows(STATUSES, c, map[]) == [row]
  {
    assert FromRows(STATUSES.from, c, map[]) == [map["o" := row]];
    OneColumnOneRow(STATUSES, "status", "o", "status", c, map["o" := row]);
  }

  lemma StatusesOfNone(c: Context)
    requires SourceRows(Named("orders"), c, map[]) == []
    ensures Rows(STATUSES, c, map[]) == []
  {
    assert FromRows(STATUSES.from, c, map[]) == [];
    assert Kept(STATUSES, c, map[]) == [];
    assert !HasAgg(STATUSES.items[0].e) && !Collapses(STATUSES);
    assert Projected(STATUSES, c, map[]) == [];
  }

  lemma ShadowedUnnarrowed(j: Job)
    requires j.hidden
    ensures !Narrows(SHADOWED, j)
  {
    assert STATUSES.items[1..] == [];
    assert Unnarrowed(j)(STATUSES) && Unnarrowed(j)(SHADOWED);
    assert AllFrom(STATUSES.from, Unnarrowed(j)) && AllItems(STATUSES.items, Unnarrowed(j));
    assert All(STATUSES, Unnarrowed(j));
  }

  lemma ShadowedNames()
    ensures NamesCte(SHADOWED, "orders")
  {
    var p := (n: Query) => !(n.With? && n.name == "orders");
    assert !p(SHADOWED);
    assert !All(SHADOWED, p);
  }

  lemma RowsDiffer(v: Value, w: Value)
    requires v != w
    ensures [map["status" := v]] != [map["status" := w]]
  {
    assert map["status" := v]["status"] != map["status" := w]["status"];
    assert [map["status" := v]][0] != [map["status" := w]][0];
  }

  lemma RightJoinUntouched(j: Job)
    requires j == Job(ORDERS, PAID, false)
    ensures !All(RIGHT_JOINED, Reach(j)) && !Narrows(RIGHT_JOINED, j) && Apply(RIGHT_JOINED, j) == RIGHT_JOINED
  {
    Untouched(RIGHT_JOINED, j);
  }

  lemma RightJoinRows(c: Context)
    requires c == Context(ONE_NEW_ORDER, map[])
    ensures Rows(RIGHT_JOINED, c, map[]) == [map["status" := Text("new")]]
  {
    var order: Row := map["status" := Text("new")];
    RightJoinFound(c, order);
    OneColumnOneRow(RIGHT_JOINED, "status", "o", "status", c, map["o" := order, "c" := map[]]);
  }

  lemma RightJoinRestricted(j: Job, c: Context)
    requires j == Job(ORDERS, PAID, false) && c == Context(ONE_NEW_ORDER, map[])
    ensures Rows(RIGHT_JOINED, Restricted(c, j), map[]) == [map["status" := Null]]
  {
    RightJoinMissing(Restricted(c, j));
    OneColumnOneRow(RIGHT_JOINED, "status", "o", "status", Restricted(c, j), map["c" := map[]]);
  }

}
