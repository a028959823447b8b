/**
 Report filters (app/reports/filters.py): a reader's choice becomes a predicate in every
 SELECT that reads the filtered table directly.

 Main result, `FilteredRows`: the filtered query returns on a database exactly what the
 unfiltered one returns where the filtered table keeps only the chosen rows.
 */
module ReportFilters {
  import opened Seqs
  import opened Sql
  import opened Values

  datatype FilterKind = Values | DateRange

  datatype ReportFilter = ReportFilter(id: string, table: string, column: string, kind: FilterKind)

  /** Days are counted from an epoch; stored dates and timestamps are seconds from it. */
  datatype FilterChoice = FilterChoice(values: seq<string>, start: Option<int>, end: Option<int>) {
    predicate Empty()
      ensures Empty() <==> this == FilterChoice([], None, None)
    {
      values == [] && start.None? && end.None?
    }
  }

  const DAY := 86400

  function AsText(): string -> Value { (s: string) => Text(s) }

  function Predicate(item: ReportFilter, choice: FilterChoice, alias: string): Option<Expr> {
    var column := Col(alias, item.column);
    match item.kind
    case Values =>
      if choice.values == [] then None else Some(InList(column, Map(choice.values, AsText())))
    case DateRange =>
      var from := if choice.start.Some? then Some(Cmp(Ge, column, Lit(Num(choice.start.value * DAY)))) else None;
      // Up to the midnight after the last day: dates and times of that day are both below it.
      var until := if choice.end.Some? then Some(Cmp(Lt, column, Lit(Num((choice.end.value + 1) * DAY)))) else None;
      if from.Some? && until.Some? then Some(And(from.value, until.value))
      else if from.Some? then from
      else until
  }

  /** What the reader asked for: one of the values, or a day on or between the two. */
  predicate Chosen(item: ReportFilter, choice: FilterChoice, row: Row) {
    var v := Get(row, item.column);
    match item.kind
    case Values => choice.values == [] || exists s :: s in choice.values && v == Text(s)
    case DateRange =>
      (choice.start.Some? || choice.end.Some?) ==>
        && v.Num?
        && (choice.start.Some? ==> choice.start.value <= v.n / DAY)
        && (choice.end.Some? ==> v.n / DAY <= choice.end.value)
  }

  lemma {:induction false} MemberOfTexts(v: Value, texts: seq<string>)
    ensures IsTrue(Member(v, Map(texts, AsText()))) <==> exists s :: s in texts && v == Text(s)
  {
    if texts != [] {
      assert Map(texts, AsText())[1..] == Map(texts[1..], AsText());
      MemberOfTexts(v, texts[1..]);
      assert forall s :: s in texts <==> s == texts[0] || s in texts[1..];
    }
  }

  lemma PredicateMeaning(item: ReportFilter, choice: FilterChoice, alias: string, c: Context, e: Env, g: seq<Env>)
    ensures Predicate(item, choice, alias).Some? ==>
              (IsTrue(Eval(Predicate(item, choice, alias).value, c, e, g)) <==> Chosen(item, choice, RowOf(e, alias)))
    ensures Predicate(item, choice, alias).None? ==> Chosen(item, choice, RowOf(e, alias))
  {
    if item.kind.Values? {
      MemberOfTexts(Get(RowOf(e, alias), item.column), choice.values);
    } else {
      var column := Col(alias, item.column);
      var v := Eval(column, c, e, g);
      if choice.start.Some? {
        var bound := choice.start.value * DAY;
        assert Eval(Cmp(Ge, column, Lit(Num(bound))), c, e, g) == Compare(Ge, v, Num(bound));
      }
      if choice.end.Some? {
        var bound := (choice.end.value + 1) * DAY;
        assert Eval(Cmp(Lt, column, Lit(Num(bound))), c, e, g) == Compare(Lt, v, Num(bound));
      }
    }
  }

  // Attaching one predicate to one SELECT.

  datatype Clauses = Clauses(from: From, where: Expr)

  function Conjoin(a: Expr, p: Expr): Expr { if a == TRUE then p else And(a, p) }

  predicate HasRight(f: From) {
    f.Join? && (f.kind.RightOuter? || f.kind.FullOuter? || HasRight(f.left))
  }

  predicate JoinedLeft(f: From, alias: string) {
    f.Join? && ((f.alias == alias && f.kind.LeftOuter?) || JoinedLeft(f.left, alias))
  }

  /** The ON of the LEFT JOIN that brings `alias` in. */
  function SetOn(f: From, alias: string, p: Expr): From {
    match f
    case One(_, _) => f
    case Join(l, k, s, a, on) =>
      if JoinedLeft(l, alias) then Join(SetOn(l, alias, p), k, s, a, on)
      else if a == alias && k.LeftOuter? then Join(l, k, s, a, Conjoin(on, p))
      else f
  }

  /** None when a RIGHT or FULL join leaves nowhere the predicate would only narrow rows. */
  function Attach(cl: Clauses, alias: string, p: Expr): Option<Clauses> {
    if HasRight(cl.from) then None
    else if JoinedLeft(cl.from, alias) then Some(cl.(from := SetOn(cl.from, alias, p)))
    else Some(cl.(where := Conjoin(cl.where, p)))
  }

  /** Alias and table of the physical tables a FROM list reads directly, in its order. */
  function DirectTables(f: From): seq<(string, string)> {
    match f
    case One(s, a) => DirectTable(s, a)
    case Join(l, _, s, a, _) => DirectTables(l) + DirectTable(s, a)
  }

  function DirectTable(s: Source, alias: string): seq<(string, string)> {
    if s.Named? then [(alias, s.table)] else []
  }

  /** One filter with the reader's choice, and whether a CTE of the query hides its table. */
  datatype Job = Job(item: ReportFilter, choice: FilterChoice, hidden: bool)

  function AttachAll(cl: Clauses, tables: seq<(string, string)>, j: Job): Clauses {
    if tables == [] then cl
    else
      var (alias, table) := tables[|tables| - 1];
      var before := AttachAll(cl, tables[..|tables| - 1], j);
      var p := Predicate(j.item, j.choice, alias);
      if table != j.item.table || j.hidden || p.None? then before
      else
        var attached := Attach(before, alias, p.value);
        if attached.Some? then attached.value else before
  }

  function Apply(q: Query, j: Job): Query
    decreases q, 0
  {
    match q
    case Select(from, where, group, having, star, items, distinct, limit) =>
      var cl := AttachAll(Clauses(ApplyFrom(from, j), ApplyExpr(where, j)), DirectTables(from), j);
      Select(cl.from, cl.where, ApplyGrouping(group, j), ApplyExpr(having, j), star, ApplyItems(items, j),
             distinct, limit)
    case Union(l, r, all) => Union(Apply(l, j), Apply(r, j), all)
    case With(name, def, body) => With(name, Apply(def, j), Apply(body, j))
  }

  function ApplyFrom(f: From, j: Job): From
    decreases f
  {
    match f
    case One(s, a) => One(ApplySource(s, j), a)
    case Join(l, k, s, a, on) => Join(ApplyFrom(l, j), k, ApplySource(s, j), a, ApplyExpr(on, j))
  }

  function ApplySource(s: Source, j: Job): Source
    decreases s
  {
    match s
    case Named(_) => s
    case Derived(q) => Derived(Apply(q, j))
  }

  function ApplyExpr(x: Expr, j: Job): Expr
    decreases x
  {
    match x
    case Lit(_) => x
    case Col(_, _) => x
    case Cmp(op, l, r) => Cmp(op, ApplyExpr(l, j), ApplyExpr(r, j))
    case InList(y, vs) => InList(ApplyExpr(y, j), vs)
    case IsNull(y) => IsNull(ApplyExpr(y, j))
    case Plus(l, r) => Plus(ApplyExpr(l, j), ApplyExpr(r, j))
    case Cast(k, y) => Cast(k, ApplyExpr(y, j))
    case Paren(y) => Paren(ApplyExpr(y, j))
    case Not(y) => Not(ApplyExpr(y, j))
    case And(l, r) => And(ApplyExpr(l, j), ApplyExpr(r, j))
    case Or(l, r) => Or(ApplyExpr(l, j), ApplyExpr(r, j))
    case If(t, l, r) => If(ApplyExpr(t, j), ApplyExpr(l, j), ApplyExpr(r, j))
    case Agg(f, y) => Agg(f, ApplyExpr(y, j))
    case Exists(q) => Exists(Apply(q, j))
    case InQuery(y, q) => InQuery(ApplyExpr(y, j), Apply(q, j))
    case Scalar(q) => Scalar(Apply(q, j))
  }

  function ApplyItems(items: seq<Item>, j: Job): (r: seq<Item>)
    ensures |r| == |items|
    ensures forall i :: 0 <= i < |items| ==> r[i].name == items[i].name && r[i].e == ApplyExpr(items[i].e, j)
    decreases items
  {
    if items == [] then []
    else [Item(items[0].name, ApplyExpr(items[0].e, j))] + ApplyItems(items[1..], j)
  }

  function ApplyKey(key: GroupItem, j: Job): GroupItem
    decreases key
  {
    match key
    case ByExpr(x) => ByExpr(ApplyExpr(x, j))
    case ByName(_) => key
  }

  function ApplyKeys(keys: seq<GroupItem>, j: Job): (r: seq<GroupItem>)
    ensures |r| == |keys|
    ensures forall i :: 0 <= i < |keys| ==> r[i] == ApplyKey(keys[i], j)
    decreases keys
  {
    if keys == [] then [] else [ApplyKey(keys[0], j)] + ApplyKeys(keys[1..], j)
  }

  function ApplyGrouping(g: Grouping, j: Job): Grouping
    decreases g
  {
    match g
    case Whole => g
    case By(keys) => By(ApplyKeys(keys, j))
  }

  // When a filter reaches every read of its table.

  predicate Reads(f: From, table: string) {
    match f
    case One(s, _) => s == Named(table)
    case Join(l, _, s, _, _) => s == Named(table) || Reads(l, table)
  }

  /** PostgreSQL's own rule on aliases; no RIGHT or FULL join beside a direct read; no CTE of that name. */
  predicate Reachable(n: Query, table: string) {
    match n
    case Select(from, _, _, _, _, _, _, _) => DistinctAliases(from) && (Reads(from, table) ==> !HasRight(from))
    case Union(_, _, _) => true
    case With(name, _, _) => name != table
  }

  function Reach(j: Job): Query -> bool { (n: Query) => Reachable(n, j.item.table) }

  /** Whether a CTE somewhere in the query has the name: then no read of it is a direct one. */
  predicate NamesCte(q: Query, name: string) {
    !All(q, (n: Query) => !(n.With? && n.name == name))
  }

  function ChosenRow(j: Job): Row -> bool { (r: Row) => Chosen(j.item, j.choice, r) }

  /** The database whose filtered table keeps only the chosen rows. */
  function Restrict(tables: Tables, j: Job): Tables {
    if j.item.table in tables then
      tables[j.item.table := Filter(tables[j.item.table], ChosenRow(j))]
    else tables
  }

  function Restricted(c: Context, j: Job): Context {
    c.(tables := Restrict(c.tables, j))
  }

  // The clauses `AttachAll` arrives at: LEFT-joined reads are narrowed in ON, the others in WHERE.

  function OnWith(k: JoinKind, s: Source, alias: string, on: Expr, j: Job): Expr {
    var p := Predicate(j.item, j.choice, alias);
    if k.LeftOuter? && s == Named(j.item.table) && p.Some? then Conjoin(ApplyExpr(on, j), p.value)
    else ApplyExpr(on, j)
  }

  function Pushed(f: From, j: Job): From {
    match f
    case One(s, a) => One(ApplySource(s, j), a)
    case Join(l, k, s, a, on) => Join(Pushed(l, j), k, ApplySource(s, j), a, OnWith(k, s, a, on, j))
  }

  function WhereAliases(f: From, table: string): seq<string> {
    match f
    case One(s, a) => if s == Named(table) then [a] else []
    case Join(l, k, s, a, _) =>
      WhereAliases(l, table) + if s == Named(table) && !k.LeftOuter? then [a] else []
  }

  function ConjoinAll(x: Expr, aliases: seq<string>, j: Job): Expr {
    if aliases == [] then x
    else
      var p := Predicate(j.item, j.choice, aliases[|aliases| - 1]);
      var before := ConjoinAll(x, aliases[..|aliases| - 1], j);
      if p.None? then before else Conjoin(before, p.value)
  }

  lemma ApplyFromShape(f: From, j: Job)
    ensures HasRight(ApplyFrom(f, j)) == HasRight(f)
    ensures HasRight(Pushed(f, j)) == HasRight(f)
    ensures Aliases(Pushed(f, j)) == Aliases(f)
    ensures forall a :: JoinedLeft(Pushed(f, j), a) == JoinedLeft(f, a)
  {
  }

  lemma JoinedLeftIsAlias(f: From, alias: string)
    ensures JoinedLeft(f, alias) ==> alias in Aliases(f)
  {
  }

  lemma {:induction false} DirectTablesAreAliases(f: From)
    ensures forall i :: 0 <= i < |DirectTables(f)| ==> DirectTables(f)[i].0 in Aliases(f)
  {
    if f.Join? { DirectTablesAreAliases(f.left); }
  }

  /** Filters on the left tables of a join leave the join itself alone. */
  lemma {:induction false} AttachAllUnder(l: From, k: JoinKind, s: Source, a: string, on: Expr, w: Expr,
                                          tables: seq<(string, string)>, j: Job)
    requires !k.RightOuter? && !k.FullOuter?
    requires forall i :: 0 <= i < |tables| ==> tables[i].0 != a
    ensures var cl := AttachAll(Clauses(l, w), tables, j);
            AttachAll(Clauses(Join(l, k, s, a, on), w), tables, j) == Clauses(Join(cl.from, k, s, a, on), cl.where)
  {
    if tables != [] {
      AttachAllUnder(l, k, s, a, on, w, tables[..|tables| - 1], j);
    }
  }

  lemma {:induction false} AttachAllElsewhere(cl: Clauses, tables: seq<(string, string)>, j: Job)
    requires forall i :: 0 <= i < |tables| ==> tables[i].1 != j.item.table
    ensures AttachAll(cl, tables, j) == cl
  {
    if tables != [] {
      AttachAllElsewhere(cl, tables[..|tables| - 1], j);
    }
  }

  lemma {:induction false} NoReads(f: From, j: Job)
    requires !Reads(f, j.item.table)
    ensures Pushed(f, j) == ApplyFrom(f, j) && WhereAliases(f, j.item.table) == []
    ensures forall i :: 0 <= i < |DirectTables(f)| ==> DirectTables(f)[i].1 != j.item.table
  {
    if f.Join? { NoReads(f.left, j); }
  }

  lemma {:induction false} AttachAllIs(f: From, w: Expr, j: Job)
    requires DistinctAliases(f) && (Reads(f, j.item.table) ==> !HasRight(f))
    requires !j.hidden
    ensures AttachAll(Clauses(ApplyFrom(f, j), w), DirectTables(f), j)
         == Clauses(Pushed(f, j), ConjoinAll(w, WhereAliases(f, j.item.table), j))
  {
    if !Reads(f, j.item.table) {
      NoReads(f, j);
      AttachAllElsewhere(Clauses(ApplyFrom(f, j), w), DirectTables(f), j);
    } else if f.Join? {
      AttachAllIs(f.left, w, j);
      ApplyFromShape(f.left, j);
      DirectTablesAreAliases(f.left);
      JoinedLeftIsAlias(f.left, f.alias);
      AttachAllUnder(ApplyFrom(f.left, j), f.kind, ApplySource(f.src, j), f.alias, ApplyExpr(f.on, j), w,
                     DirectTables(f.left), j);
      var tables := DirectTables(f);
      if f.src.Named? {
        assert tables[..|tables| - 1] == DirectTables(f.left);
      } else {
        assert tables == DirectTables(f.left);
      }
      var wheres := WhereAliases(f, j.item.table);
      if f.src == Named(j.item.table) && !f.kind.LeftOuter? {
        assert wheres[..|wheres| - 1] == WhereAliases(f.left, j.item.table);
      } else {
        assert wheres == WhereAliases(f.left, j.item.table);
      }
    }
  }

  // Narrowing a join's rows, or its ON, or the combinations afterwards.

  function AllChosen(aliases: seq<string>, j: Job): Env -> bool {
    (e: Env) => forall a :: a in aliases ==> Chosen(j.item, j.choice, RowOf(e, a))
  }

  lemma {:induction false} MatchesNarrow(e: Env, a: string, rows: seq<Row>, ok: Env -> bool, narrowed: Env -> bool,
                                         keep: Row -> bool)
    requires forall r :: r in rows ==> narrowed(e[a := r]) == (ok(e[a := r]) && keep(r))
    ensures Matches(e, a, rows, narrowed) == Matches(e, a, Filter(rows, keep), ok)
  {
    var ext := Extend(e, a);
    FilterMap(rows, ext, narrowed);
    FilterMap(Filter(rows, keep), ext, ok);
    FilterTwice(rows, keep, Compose(ext, ok));
    FilterCong(rows, Compose(ext, narrowed), Both(keep, Compose(ext, ok)));
  }

  lemma {:induction false} MatchesKept(e: Env, a: string, rows: seq<Row>, ok: Env -> bool, keep: Row -> bool,
                                       kept: Env -> bool)
    requires forall r :: r in rows ==> kept(e[a := r]) == keep(r)
    ensures Filter(Matches(e, a, rows, ok), kept) == Matches(e, a, Filter(rows, keep), ok)
  {
    FilterTwice(Map(rows, Extend(e, a)), ok, kept);
    MatchesNarrow(e, a, rows, ok, Both(ok, kept), keep);
  }

  /** A filtered table may be narrowed after an inner join instead of before it. */
  lemma {:induction false} InnerNarrow(lefts: seq<Env>, a: string, rows: seq<Row>, ok: Env -> bool, keep: Row -> bool,
                                       kept: Env -> bool)
    requires forall x: Env :: a in x ==> kept(x) == keep(x[a])
    ensures Filter(FlatMap(lefts, InnerStep(a, rows, ok)), kept)
         == FlatMap(lefts, InnerStep(a, Filter(rows, keep), ok))
  {
    if lefts != [] {
      var e := lefts[0];
      forall r | r in rows ensures kept(e[a := r]) == keep(r) {
        assert a in e[a := r];
      }
      MatchesKept(e, a, rows, ok, keep, kept);
      FilterConcat(Matches(e, a, rows, ok), FlatMap(lefts[1..], InnerStep(a, rows, ok)), kept);
      InnerNarrow(lefts[1..], a, rows, ok, keep, kept);
    }
  }

  lemma {:induction false} WhereAliasesAreAliases(f: From, table: string)
    ensures forall a :: a in WhereAliases(f, table) ==> a in Aliases(f)
  {
    if f.Join? { WhereAliasesAreAliases(f.left, table); }
  }

  lemma OuterStepExtends(e: Env, a: string, rows: seq<Row>, ok: Env -> bool, x: Env)
    requires x in InnerStep(a, rows, ok)(e) || x in OuterStep(a, rows, ok)(e)
    ensures x == e || (a in x && x == e[a := x[a]])
  {
    if x in Matches(e, a, rows, ok) {
      FilterIn(Map(rows, Extend(e, a)), ok);
      var i :| 0 <= i < |rows| && x == Extend(e, a)(rows[i]);
    }
  }

  /** Joining in a further source does not disturb a choice among the earlier ones. */
  lemma {:induction false} ExpandChosen(outer: bool, lefts: seq<Env>, a: string, rows: seq<Row>, ok: Env -> bool,
                                        aliases: seq<string>, j: Job)
    requires a !in aliases
    ensures var step := if outer then OuterStep(a, rows, ok) else InnerStep(a, rows, ok);
            Filter(FlatMap(lefts, step), AllChosen(aliases, j)) == FlatMap(Filter(lefts, AllChosen(aliases, j)), step)
  {
    var step := if outer then OuterStep(a, rows, ok) else InnerStep(a, rows, ok);
    var p := AllChosen(aliases, j);
    forall e, x | e in lefts && x in step(e) ensures p(x) == p(e) {
      OuterStepExtends(e, a, rows, ok, x);
      forall b | b in aliases ensures RowOf(x, b) == RowOf(e, b) {
      }
    }
    FilterExpansion(lefts, step, p, p);
  }

  lemma ConjoinHolds(on: Expr, alias: string, c: Context, e: Env, j: Job)
    requires Predicate(j.item, j.choice, alias).Some?
    ensures Holds(Conjoin(on, Predicate(j.item, j.choice, alias).value), c)(e)
        <==> Holds(on, c)(e) && Chosen(j.item, j.choice, RowOf(e, alias))
  {
    PredicateMeaning(j.item, j.choice, alias, c, e, []);
  }

  /** The hypotheses one join contributes to `FromRowsApply`. */
  ghost predicate PartsApply(f: From, c: Context, base: Env, j: Job)
    requires f.Join?
  {
    && Filter(FromRows(Pushed(f.left, j), c, base), AllChosen(WhereAliases(f.left, j.item.table), j))
       == FromRows(f.left, Restricted(c, j), base)
    && (f.src == Named(j.item.table) || SourceRows(ApplySource(f.src, j), c, base) == SourceRows(f.src, Restricted(c, j), base))
    && (forall e :: HoldsAbove(ApplyExpr(f.on, j), c, base)(e) == HoldsAbove(f.on, Restricted(c, j), base)(e))
  }

  lemma {:induction false} JoinElsewhere(f: From, c: Context, base: Env, j: Job)
    requires f.Join? && f.src != Named(j.item.table) && PartsApply(f, c, base, j)
    requires DistinctAliases(f) && (Reads(f, j.item.table) ==> !HasRight(f))
    ensures Filter(FromRows(Pushed(f, j), c, base), AllChosen(WhereAliases(f, j.item.table), j))
         == FromRows(f, Restricted(c, j), base)
  {
    var lefts, rows := FromRows(Pushed(f.left, j), c, base), SourceRows(f.src, Restricted(c, j), base);
    var ok := HoldsAbove(ApplyExpr(f.on, j), c, base);
    var aliases := WhereAliases(f.left, j.item.table);
    assert WhereAliases(f, j.item.table) == aliases;
    WhereAliasesAreAliases(f.left, j.item.table);
    JoinRowsCong(f.kind, FromRows(f.left, Restricted(c, j), base), f.alias, rows, ok,
                 HoldsAbove(f.on, Restricted(c, j), base));
    if f.kind.RightOuter? || f.kind.FullOuter? {
      NoReads(f, j);
      FilterAll(lefts, AllChosen(aliases, j));
      FilterAll(FromRows(Pushed(f, j), c, base), AllChosen(aliases, j));
    } else {
      ExpandChosen(f.kind.LeftOuter?, lefts, f.alias, rows, ok, aliases, j);
    }
  }

  lemma {:induction false} JoinFiltered(f: From, c: Context, base: Env, j: Job)
    requires f.Join? && f.src == Named(j.item.table) && PartsApply(f, c, base, j)
    requires DistinctAliases(f) && !HasRight(f)
    requires j.item.table !in c.ctes
    ensures Filter(FromRows(Pushed(f, j), c, base), AllChosen(WhereAliases(f, j.item.table), j))
         == FromRows(f, Restricted(c, j), base)
  {
    var lefts, rows := FromRows(Pushed(f.left, j), c, base), SourceRows(f.src, c, base);
    var chosen := Filter(rows, ChosenRow(j));
    assert SourceRows(f.src, Restricted(c, j), base) == chosen;
    var ok := HoldsAbove(ApplyExpr(f.on, j), c, base);
    var aliases, a := WhereAliases(f.left, j.item.table), f.alias;
    WhereAliasesAreAliases(f.left, j.item.table);
    JoinRowsCong(f.kind, FromRows(f.left, Restricted(c, j), base), a, chosen, ok, HoldsAbove(f.on, Restricted(c, j), base));
    if f.kind.LeftOuter? {
      assert WhereAliases(f, j.item.table) == aliases;
      LeftNarrow(f, c, base, j, lefts, rows);
      ExpandChosen(true, lefts, a, chosen, ok, aliases, j);
    } else {
      assert WhereAliases(f, j.item.table) == aliases + [a];
      WhereNarrow(lefts, a, rows, ok, aliases, j);
      ExpandChosen(false, lefts, a, chosen, ok, aliases, j);
    }
  }

  /** For an inner join the predicate in WHERE is as good as a restricted table. */
  lemma WhereNarrow(lefts: seq<Env>, a: string, rows: seq<Row>, ok: Env -> bool, aliases: seq<string>, j: Job)
    ensures Filter(FlatMap(lefts, InnerStep(a, rows, ok)), AllChosen(aliases + [a], j))
         == Filter(FlatMap(lefts, InnerStep(a, Filter(rows, ChosenRow(j)), ok)), AllChosen(aliases, j))
  {
    var all := FlatMap(lefts, InnerStep(a, rows, ok));
    FilterTwice(all, AllChosen([a], j), AllChosen(aliases, j));
    FilterCong(all, AllChosen(aliases + [a], j), Both(AllChosen([a], j), AllChosen(aliases, j)));
    forall x: Env | a in x ensures AllChosen([a], j)(x) == ChosenRow(j)(x[a]) {
      assert a in [a] && RowOf(x, a) == x[a];
    }
    InnerNarrow(lefts, a, rows, ok, ChosenRow(j), AllChosen([a], j));
  }

  /** In the ON of a LEFT JOIN the predicate keeps the unmatched rows of the left side. */
  lemma {:induction false} LeftNarrow(f: From, c: Context, base: Env, j: Job, lefts: seq<Env>, rows: seq<Row>)
    requires f.Join? && f.kind.LeftOuter? && f.src == Named(j.item.table)
    ensures FlatMap(lefts, OuterStep(f.alias, rows, HoldsAbove(OnWith(f.kind, f.src, f.alias, f.on, j), c, base)))
         == FlatMap(lefts, OuterStep(f.alias, Filter(rows, ChosenRow(j)), HoldsAbove(ApplyExpr(f.on, j), c, base)))
  {
    var a, ok := f.alias, HoldsAbove(ApplyExpr(f.on, j), c, base);
    var narrowed := HoldsAbove(OnWith(f.kind, f.src, a, f.on, j), c, base);
    if Predicate(j.item, j.choice, a).None? {
      forall r | r in rows ensures ChosenRow(j)(r) {
        PredicateMeaning(j.item, j.choice, a, c, map[a := r], []);
      }
      FilterAll(rows, ChosenRow(j));
    } else {
      forall e | e in lefts
        ensures OuterStep(a, rows, narrowed)(e) == OuterStep(a, Filter(rows, ChosenRow(j)), ok)(e)
      {
        forall r | r in rows ensures narrowed(e[a := r]) == (ok(e[a := r]) && ChosenRow(j)(r)) {
          ConjoinHolds(ApplyExpr(f.on, j), a, c, base + e[a := r], j);
        }
        MatchesNarrow(e, a, rows, ok, narrowed, ChosenRow(j));
      }
      FlatMapCong(lefts, OuterStep(a, rows, narrowed), OuterStep(a, Filter(rows, ChosenRow(j)), ok));
    }
  }

  // The main theorem, by induction over the query.

  predicate Ready(c: Context, j: Job) {
    j.item.table !in c.ctes && !j.hidden
  }

  lemma {:induction false} FilteredExpr(x: Expr, c: Context, e: Env, group: seq<Env>, j: Job)
    requires AllExpr(x, Reach(j)) && Ready(c, j)
    ensures Eval(ApplyExpr(x, j), c, e, group) == Eval(x, Restricted(c, j), e, group)
    decreases x
  {
    match x
    case Lit(_) =>
    case Col(_, _) =>
    case Cmp(_, l, r) => FilteredExpr(l, c, e, group, j); FilteredExpr(r, c, e, group, j);
    case InList(y, _) => FilteredExpr(y, c, e, group, j);
    case IsNull(y) => FilteredExpr(y, c, e, group, j);
    case Plus(l, r) => FilteredExpr(l, c, e, group, j); FilteredExpr(r, c, e, group, j);
    case Cast(_, y) => FilteredExpr(y, c, e, group, j);
    case Paren(y) => FilteredExpr(y, c, e, group, j);
    case Not(y) => FilteredExpr(y, c, e, group, j);
    case And(l, r) => FilteredExpr(l, c, e, group, j); FilteredExpr(r, c, e, group, j);
    case Or(l, r) => FilteredExpr(l, c, e, group, j); FilteredExpr(r, c, e, group, j);
    case If(t, l, r) =>
      FilteredExpr(t, c, e, group, j); FilteredExpr(l, c, e, group, j); FilteredExpr(r, c, e, group, j);
    case Agg(_, y) =>
      forall g | g in group
        ensures ValueOf(ApplyExpr(y, j), c)(g) == ValueOf(y, Restricted(c, j))(g)
      {
        FilteredExpr(y, c, g, [], j);
      }
      MapCong(group, ValueOf(ApplyExpr(y, j), c), ValueOf(y, Restricted(c, j)));
    case Exists(q) => FilteredRows(q, c, e, j);
    case InQuery(y, q) => FilteredExpr(y, c, e, group, j); FilteredRows(q, c, e, j);
    case Scalar(q) => FilteredRows(q, c, e, j);
  }

  lemma {:induction false} FilteredSource(s: Source, c: Context, base: Env, j: Job)
    requires AllSource(s, Reach(j)) && Ready(c, j) && s != Named(j.item.table)
    ensures SourceRows(ApplySource(s, j), c, base) == SourceRows(s, Restricted(c, j), base)
    decreases s
  {
    match s
    case Named(_) =>
    case Derived(q) => FilteredRows(q, c, base, j);
  }

  /** Attaching the predicates and then choosing is reading the restricted tables. */
  lemma {:induction false} FilteredFrom(f: From, c: Context, base: Env, j: Job)
    requires AllFrom(f, Reach(j)) && Ready(c, j)
    requires DistinctAliases(f) && (Reads(f, j.item.table) ==> !HasRight(f))
    ensures Filter(FromRows(Pushed(f, j), c, base), AllChosen(WhereAliases(f, j.item.table), j))
         == FromRows(f, Restricted(c, j), base)
    decreases f
  {
    match f
    case One(s, a) =>
      if s == Named(j.item.table) {
        FilteredOne(s, a, c, base, j);
      } else {
        FilteredSource(s, c, base, j);
        FilterAll(FromRows(Pushed(f, j), c, base), AllChosen([], j));
      }
    case Join(l, _, s, _, on) =>
      FilteredFrom(l, c, base, j);
      forall e ensures HoldsAbove(ApplyExpr(on, j), c, base)(e) == HoldsAbove(on, Restricted(c, j), base)(e) {
        FilteredExpr(on, c, base + e, [], j);
      }
      if s == Named(j.item.table) {
        JoinFiltered(f, c, base, j);
      } else {
        FilteredSource(s, c, base, j);
        JoinElsewhere(f, c, base, j);
      }
  }

  lemma FilteredOne(s: Source, a: string, c: Context, base: Env, j: Job)
    requires s == Named(j.item.table) && j.item.table !in c.ctes
    ensures Filter(FromRows(One(s, a), c, base), AllChosen([a], j)) == FromRows(One(s, a), Restricted(c, j), base)
  {
    var rows, ext := SourceRows(s, c, base), Extend(map[], a);
    FilterMap(rows, ext, AllChosen([a], j));
    forall r | r in rows ensures Compose(ext, AllChosen([a], j))(r) == ChosenRow(j)(r) {
      assert RowOf(ext(r), a) == r && a in [a];
    }
    FilterCong(rows, Compose(ext, AllChosen([a], j)), ChosenRow(j));
  }

  lemma {:induction false} ConjoinAllHolds(x: Expr, aliases: seq<string>, c: Context, e: Env, j: Job)
    ensures Holds(ConjoinAll(x, aliases, j), c)(e) <==> Holds(x, c)(e) && AllChosen(aliases, j)(e)
  {
    if aliases != [] {
      var front, a := aliases[..|aliases| - 1], aliases[|aliases| - 1];
      ConjoinAllHolds(x, front, c, e, j);
      PredicateMeaning(j.item, j.choice, a, c, e, []);
      if Predicate(j.item, j.choice, a).Some? {
        ConjoinHolds(ConjoinAll(x, front, j), a, c, e, j);
      }
      assert forall b :: b in aliases <==> b in front || b == a;
    }
  }

  predicate SameStar(f: From, f': From) {
    match (f, f')
    case (One(_, a), One(_, a')) => a == a'
    case (Join(l, _, _, a, _), Join(l', _, _, a', _)) => a == a' && SameStar(l, l')
    case _ => false
  }

  lemma SameStarRow(f: From, f': From, e: Env)
    requires SameStar(f, f')
    ensures StarRow(f, e) == StarRow(f', e)
  {
  }

  lemma PushedStar(f: From, j: Job)
    ensures SameStar(f, Pushed(f, j))
  {
  }

  lemma {:induction false} AggregatesStay(x: Expr, j: Job)
    ensures HasAgg(ApplyExpr(x, j)) == HasAgg(x)
  {
    match x
    case Cmp(_, l, r) => AggregatesStay(l, j); AggregatesStay(r, j);
    case InList(y, _) => AggregatesStay(y, j);
    case IsNull(y) => AggregatesStay(y, j);
    case Plus(l, r) => AggregatesStay(l, j); AggregatesStay(r, j);
    case Cast(_, y) => AggregatesStay(y, j);
    case Paren(y) => AggregatesStay(y, j);
    case Not(y) => AggregatesStay(y, j);
    case And(l, r) => AggregatesStay(l, j); AggregatesStay(r, j);
    case Or(l, r) => AggregatesStay(l, j); AggregatesStay(r, j);
    case If(t, l, r) => AggregatesStay(t, j); AggregatesStay(l, j); AggregatesStay(r, j);
    case InQuery(y, _) => AggregatesStay(y, j);
    case _ =>
  }

  lemma TrueStays(x: Expr, j: Job)
    ensures ApplyExpr(x, j) == TRUE <==> x == TRUE
  {
  }

  lemma {:induction false} FilteredShape(q: Query, j: Job)
    requires q.Select? && Reachable(q, j.item.table) && !j.hidden
    ensures Apply(q, j).Select? && Collapses(Apply(q, j)) == Collapses(q)
    ensures forall e :: StarRow(Apply(q, j).from, e) == StarRow(q.from, e)
  {
    AttachAllIs(q.from, ApplyExpr(q.where, j), j);
    PushedStar(q.from, j);
    forall e ensures StarRow(Apply(q, j).from, e) == StarRow(q.from, e) {
      SameStarRow(q.from, Pushed(q.from, j), e);
    }
    AggregatesStay(q.having, j);
    TrueStays(q.having, j);
    forall i | 0 <= i < |q.items| ensures HasAgg(ApplyItems(q.items, j)[i].e) == HasAgg(q.items[i].e) {
      AggregatesStay(q.items[i].e, j);
    }
  }

  /** On one combination: the attached predicates and WHERE, against WHERE alone. */
  lemma {:induction false} FilteredWhere(q: Query, c: Context, base: Env, l: Env, j: Job)
    requires q.Select? && AllExpr(q.where, Reach(j)) && Ready(c, j)
    requires forall a :: a in Aliases(q.from) ==> a !in base
    ensures Holds(ConjoinAll(ApplyExpr(q.where, j), WhereAliases(q.from, j.item.table), j), c)(base + l)
       <==> AllChosen(WhereAliases(q.from, j.item.table), j)(l) && Holds(q.where, Restricted(c, j))(base + l)
    decreases q, 0
  {
    var aliases := WhereAliases(q.from, j.item.table);
    ConjoinAllHolds(ApplyExpr(q.where, j), aliases, c, base + l, j);
    FilteredExpr(q.where, c, base + l, [], j);
    WhereAliasesAreAliases(q.from, j.item.table);
    forall a | a in aliases ensures RowOf(base + l, a) == RowOf(l, a) {
    }
  }

  lemma {:induction false} KeptSplits(froms: seq<Env>, base: Env, chosen: Env -> bool, both: Env -> bool, where: Env -> bool)
    requires forall l :: both(Above(base)(l)) == (chosen(l) && where(Above(base)(l)))
    ensures Filter(Map(froms, Above(base)), both) == Filter(Map(Filter(froms, chosen), Above(base)), where)
  {
    var up := Above(base);
    FilterMap(froms, up, both);
    FilterCong(froms, Compose(up, both), Both(chosen, Compose(up, where)));
    FilterTwice(froms, chosen, Compose(up, where));
    FilterMap(Filter(froms, chosen), up, where);
  }

  lemma {:induction false} FilteredKept(q: Query, c: Context, outer: Env, j: Job)
    requires q.Select? && All(q, Reach(j)) && Ready(c, j)
    ensures Apply(q, j).Select? && Visible(Apply(q, j), outer) == Visible(q, outer)
    ensures Kept(Apply(q, j), c, outer) == Kept(q, Restricted(c, j), outer)
    decreases q, 1
  {
    var aliases, base := WhereAliases(q.from, j.item.table), Visible(q, outer);
    assert Reachable(q, j.item.table);
    AttachAllIs(q.from, ApplyExpr(q.where, j), j);
    ApplyFromShape(q.from, j);
    FilteredFrom(q.from, c, base, j);
    var pushed := FromRows(Pushed(q.from, j), c, base);
    var where := ConjoinAll(ApplyExpr(q.where, j), aliases, j);
    forall l: Env ensures Holds(where, c)(Above(base)(l))
                       == (AllChosen(aliases, j)(l) && Holds(q.where, Restricted(c, j))(Above(base)(l))) {
      FilteredWhere(q, c, base, l, j);
    }
    KeptSplits(pushed, base, AllChosen(aliases, j), Holds(where, c), Holds(q.where, Restricted(c, j)));
  }

  lemma {:induction false} FilteredItems(items: seq<Item>, c: Context, e: Env, group: seq<Env>, j: Job)
    requires AllItems(items, Reach(j)) && Ready(c, j)
    ensures OutputRow(ApplyItems(items, j), c, e, group) == OutputRow(items, Restricted(c, j), e, group)
    ensures forall n :: NamedValue(ApplyItems(items, j), n, c, e) == NamedValue(items, n, Restricted(c, j), e)
    decreases items
  {
    if items != [] {
      FilteredExpr(items[0].e, c, e, group, j);
      FilteredExpr(items[0].e, c, e, [], j);
      FilteredItems(items[1..], c, e, group, j);
      assert ApplyItems(items, j)[1..] == ApplyItems(items[1..], j);
    }
  }

  lemma {:induction false} AllKeysAt(keys: seq<GroupItem>, i: nat, p: Query -> bool)
    requires i < |keys|
    requires AllKeys(keys, p)
    ensures AllKey(keys[i], p)
  {
    if i > 0 { AllKeysAt(keys[1..], i - 1, p); }
  }

  lemma {:induction false} FilteredKey(q: Query, c: Context, e: Env, j: Job)
    requires q.Select? && q.group.By? && All(q, Reach(j)) && Ready(c, j)
    ensures Apply(q, j).Select? && Apply(q, j).items == ApplyItems(q.items, j)
    ensures Apply(q, j).group == By(ApplyKeys(q.group.keys, j))
    ensures GroupKey(Apply(q, j), c)(e) == GroupKey(q, Restricted(c, j))(e)
    decreases q, 0
  {
    assert Apply(q, j).group == ApplyGrouping(q.group, j);
    forall i | 0 <= i < |q.group.keys|
      ensures GroupValue(Apply(q, j), i, c, e) == GroupValue(q, i, Restricted(c, j), e)
    {
      AllKeysAt(q.group.keys, i, Reach(j));
      match q.group.keys[i]
      case ByExpr(x) => FilteredExpr(x, c, e, [], j);
      case ByName(_) => FilteredItems(q.items, c, e, [], j);
    }
  }

  lemma {:induction false} FilteredProjection(q: Query, c: Context, outer: Env, j: Job)
    requires q.Select? && All(q, Reach(j)) && Ready(c, j)
    ensures Projected(Apply(q, j), c, outer) == Projected(q, Restricted(c, j), outer)
    decreases q, 2
  {
    var q', c' := Apply(q, j), Restricted(c, j);
    var base, kept := Visible(q, outer), Kept(q, c', outer);
    FilteredKept(q, c, outer, j);
    FilteredShape(q, j);
    if Collapses(q) {
      if q.group.By? {
        forall e | e in kept ensures GroupKey(q', c)(e) == GroupKey(q, c')(e) {
          FilteredKey(q, c, e, j);
        }
        GroupsCong(kept, GroupKey(q', c), GroupKey(q, c'));
      }
      var groups := Groups(q, c', kept);
      forall g: seq<Env> ensures HavingHolds(q', c, base)(g) == HavingHolds(q, c', base)(g) {
        FilteredExpr(q.having, c, Representative(g, base), g, j);
      }
      forall g: seq<Env> ensures GroupRow(q', c, base)(g) == GroupRow(q, c', base)(g) {
        FilteredItems(q.items, c, Representative(g, base), g, j);
      }
      FilterCong(groups, HavingHolds(q', c, base), HavingHolds(q, c', base));
      MapCong(Filter(groups, HavingHolds(q, c', base)), GroupRow(q', c, base), GroupRow(q, c', base));
    } else {
      forall e: Env ensures PlainRow(q', c)(e) == PlainRow(q, c')(e) {
        FilteredItems(q.items, c, e, [], j);
      }
      MapCong(kept, PlainRow(q', c), PlainRow(q, c'));
    }
  }

  /** For any nesting of CTEs and subqueries, filtering the query is restricting the table. */
  lemma {:induction false} FilteredRows(q: Query, c: Context, outer: Env, j: Job)
    requires All(q, Reach(j)) && Ready(c, j)
    ensures Rows(Apply(q, j), c, outer) == Rows(q, Restricted(c, j), outer)
    decreases q, 3
  {
    match q
    case Select(_, _, _, _, _, _, _, _) => FilteredProjection(q, c, outer, j);
    case Union(l, r, _) => FilteredRows(l, c, outer, j); FilteredRows(r, c, outer, j);
    case With(name, def, body) =>
      assert Reachable(q, j.item.table);
      FilteredRows(def, c, outer, j);
      FilteredRows(body, c.(ctes := c.ctes[name := Rows(def, Restricted(c, j), outer)]), outer, j);
  }

  // Several filters.

  lemma {:induction false} SetOnKeeps(f: From, alias: string, x: Expr, p: Query -> bool)
    requires AllExpr(x, p)
    ensures AllFrom(SetOn(f, alias, x), p) == AllFrom(f, p)
    ensures HasRight(SetOn(f, alias, x)) == HasRight(f) && Aliases(SetOn(f, alias, x)) == Aliases(f)
    ensures DistinctAliases(SetOn(f, alias, x)) == DistinctAliases(f)
    ensures forall t :: Reads(SetOn(f, alias, x), t) == Reads(f, t)
    ensures DirectTables(SetOn(f, alias, x)) == DirectTables(f)
  {
    if f.Join? { SetOnKeeps(f.left, alias, x, p); }
  }

  lemma PredicateHasNoQueries(item: ReportFilter, choice: FilterChoice, alias: string, p: Query -> bool)
    ensures Predicate(item, choice, alias).Some? ==> AllExpr(Predicate(item, choice, alias).value, p)
  {
    var x := Predicate(item, choice, alias);
    if x.Some? && x.value.And? {
      assert AllExpr(x.value.l.l, p) && AllExpr(x.value.l.r, p) && AllExpr(x.value.r.l, p) && AllExpr(x.value.r.r, p);
    }
  }

  /** The clauses read the same tables under the same aliases, and hold of their subqueries what they did. */
  ghost predicate KeptShape(cl: Clauses, after: Clauses, p: Query -> bool) {
    && AllFrom(after.from, p) == AllFrom(cl.from, p) && AllExpr(after.where, p) == AllExpr(cl.where, p)
    && HasRight(after.from) == HasRight(cl.from) && Aliases(after.from) == Aliases(cl.from)
    && DistinctAliases(after.from) == DistinctAliases(cl.from)
    && (forall t :: Reads(after.from, t) == Reads(cl.from, t))
    && DirectTables(after.from) == DirectTables(cl.from)
  }

  lemma AttachLast(cl: Clauses, tables: seq<(string, string)>, j: Job)
    requires tables != []
    ensures var front, last := tables[..|tables| - 1], tables[|tables| - 1];
      AttachAll(cl, tables, j) == AttachAll(AttachAll(cl, front, j), [last], j)
  {
    assert [tables[|tables| - 1]][..0] == [];
  }

  lemma AttachOneKeeps(cl: Clauses, table: (string, string), j: Job, p: Query -> bool)
    ensures KeptShape(cl, AttachAll(cl, [table], j), p)
  {
    assert [table][..0] == [] && AttachAll(cl, [], j) == cl;
    var x := Predicate(j.item, j.choice, table.0);
    PredicateHasNoQueries(j.item, j.choice, table.0, p);
    if x.Some? { SetOnKeeps(cl.from, table.0, x.value, p); }
  }

  lemma {:induction false} AttachAllKeeps(cl: Clauses, tables: seq<(string, string)>, j: Job, p: Query -> bool)
    ensures KeptShape(cl, AttachAll(cl, tables, j), p)
  {
    if tables != [] {
      var front, last := tables[..|tables| - 1], tables[|tables| - 1];
      AttachAllKeeps(cl, front, j, p);
      AttachOneKeeps(AttachAll(cl, front, j), last, j, p);
      AttachLast(cl, tables, j);
    }
  }

  lemma {:induction false} ApplyFromKeeps(f: From, j: Job)
    ensures HasRight(ApplyFrom(f, j)) == HasRight(f) && Aliases(ApplyFrom(f, j)) == Aliases(f)
    ensures DistinctAliases(ApplyFrom(f, j)) == DistinctAliases(f)
    ensures forall t :: Reads(ApplyFrom(f, j), t) == Reads(f, t)
    ensures DirectTables(ApplyFrom(f, j)) == DirectTables(f)
  {
    if f.Join? { ApplyFromKeeps(f.left, j); }
  }

  /** Applying one filter changes nothing another one looks at. */
  lemma {:induction false} ApplyKeeps(n: Query, j: Job, k: Job)
    ensures Reachable(Apply(n, j), k.item.table) == Reachable(n, k.item.table)
    ensures SelectNarrows(Apply(n, j), k) == SelectNarrows(n, k)
  {
    if n.Select? {
      ApplyFromKeeps(n.from, j);
      AttachAllKeeps(Clauses(ApplyFrom(n.from, j), ApplyExpr(n.where, j)), DirectTables(n.from), j, Reach(k));
    }
  }

  lemma {:induction false} AllApplied(q: Query, j: Job, p: Query -> bool)
    requires forall n :: p(Apply(n, j)) == p(n)
    ensures All(Apply(q, j), p) == All(q, p)
    decreases q, 1
  {
    match q
    case Select(from, where, group, having, _, items, _, _) =>
      AllAppliedFrom(from, j, p);
      AllAppliedExpr(where, j, p);
      AllAppliedExpr(having, j, p);
      AllAppliedItems(items, j, p);
      if group.By? { AllAppliedKeys(group.keys, j, p); }
      AttachAllKeeps(Clauses(ApplyFrom(from, j), ApplyExpr(where, j)), DirectTables(from), j, p);
    case Union(l, r, _) => AllApplied(l, j, p); AllApplied(r, j, p);
    case With(_, def, body) => AllApplied(def, j, p); AllApplied(body, j, p);
  }

  lemma {:induction false} AllAppliedFrom(f: From, j: Job, p: Query -> bool)
    requires forall n :: p(Apply(n, j)) == p(n)
    ensures AllFrom(ApplyFrom(f, j), p) == AllFrom(f, p)
    decreases f
  {
    match f
    case One(s, _) => AllAppliedSource(s, j, p);
    case Join(l, _, s, _, on) => AllAppliedFrom(l, j, p); AllAppliedSource(s, j, p); AllAppliedExpr(on, j, p);
  }

  lemma {:induction false} AllAppliedSource(s: Source, j: Job, p: Query -> bool)
    requires forall n :: p(Apply(n, j)) == p(n)
    ensures AllSource(ApplySource(s, j), p) == AllSource(s, p)
    decreases s
  {
    match s
    case Named(_) =>
    case Derived(q) => AllApplied(q, j, p);
  }

  lemma {:induction false} AllAppliedExpr(x: Expr, j: Job, p: Query -> bool)
    requires forall n :: p(Apply(n, j)) == p(n)
    ensures AllExpr(ApplyExpr(x, j), p) == AllExpr(x, p)
    decreases x
  {
    match x
    case Lit(_) =>
    case Col(_, _) =>
    case Cmp(_, l, r) => AllAppliedExpr(l, j, p); AllAppliedExpr(r, j, p);
    case InList(y, _) => AllAppliedExpr(y, j, p);
    case IsNull(y) => AllAppliedExpr(y, j, p);
    case Plus(l, r) => AllAppliedExpr(l, j, p); AllAppliedExpr(r, j, p);
    case Cast(_, y) => AllAppliedExpr(y, j, p);
    case Paren(y) => AllAppliedExpr(y, j, p);
    case Not(y) => AllAppliedExpr(y, j, p);
    case And(l, r) => AllAppliedExpr(l, j, p); AllAppliedExpr(r, j, p);
    case Or(l, r) => AllAppliedExpr(l, j, p); AllAppliedExpr(r, j, p);
    case If(t, l, r) => AllAppliedExpr(t, j, p); AllAppliedExpr(l, j, p); AllAppliedExpr(r, j, p);
    case Agg(_, y) => AllAppliedExpr(y, j, p);
    case Exists(q) => AllApplied(q, j, p);
    case InQuery(y, q) => AllAppliedExpr(y, j, p); AllApplied(q, j, p);
    case Scalar(q) => AllApplied(q, j, p);
  }

  lemma {:induction false} AllAppliedItems(items: seq<Item>, j: Job, p: Query -> bool)
    requires forall n :: p(Apply(n, j)) == p(n)
    ensures AllItems(ApplyItems(items, j), p) == AllItems(items, p)
    decreases items
  {
    if items != [] {
      AllAppliedExpr(items[0].e, j, p);
      AllAppliedItems(items[1..], j, p);
      assert ApplyItems(items, j)[1..] == ApplyItems(items[1..], j);
    }
  }

  lemma {:induction false} AllAppliedKey(key: GroupItem, j: Job, p: Query -> bool)
    requires forall n :: p(Apply(n, j)) == p(n)
    ensures AllKey(ApplyKey(key, j), p) == AllKey(key, p)
    decreases key
  {
    match key
    case ByExpr(x) => AllAppliedExpr(x, j, p);
    case ByName(_) =>
  }

  lemma {:induction false} AllAppliedKeys(keys: seq<GroupItem>, j: Job, p: Query -> bool)
    requires forall n :: p(Apply(n, j)) == p(n)
    ensures AllKeys(ApplyKeys(keys, j), p) == AllKeys(keys, p)
    decreases keys
  {
    if keys != [] {
      AllAppliedKey(keys[0], j, p);
      AllAppliedKeys(keys[1..], j, p);
      assert ApplyKeys(keys, j)[1..] == ApplyKeys(keys[1..], j);
    }
  }

  /** Whether some SELECT takes the predicate: what reports the filter as applied. */
  predicate Narrows(q: Query, j: Job) {
    !All(q, Unnarrowed(j))
  }

  function Unnarrowed(j: Job): Query -> bool { (n: Query) => !SelectNarrows(n, j) }

  predicate SelectNarrows(n: Query, j: Job) {
    n.Select? && !HasRight(n.from) && !j.hidden && Reads(n.from, j.item.table)
    && Predicate(j.item, j.choice, "").Some?
  }

  // A filter no SELECT takes leaves the query as it was.

  lemma {:induction false} UntouchedTables(cl: Clauses, tables: seq<(string, string)>, j: Job)
    requires j.hidden || Predicate(j.item, j.choice, "").None? || HasRight(cl.from)
             || forall i :: 0 <= i < |tables| ==> tables[i].1 != j.item.table
    ensures AttachAll(cl, tables, j) == cl
  {
    if tables != [] {
      UntouchedTables(cl, tables[..|tables| - 1], j);
      assert Predicate(j.item, j.choice, tables[|tables| - 1].0).Some? <==> Predicate(j.item, j.choice, "").Some?;
    }
  }

  lemma {:induction false} Untouched(q: Query, j: Job)
    requires All(q, Unnarrowed(j))
    ensures Apply(q, j) == q
    decreases q, 1
  {
    match q
    case Select(from, where, group, having, _, items, _, _) =>
      UntouchedFrom(from, j);
      UntouchedExpr(where, j);
      UntouchedExpr(having, j);
      UntouchedItems(items, j);
      if group.By? { UntouchedKeys(group.keys, j); }
      if !Reads(from, j.item.table) { NoReads(from, j); }
      assert Unnarrowed(j)(q);
      UntouchedTables(Clauses(from, where), DirectTables(from), j);
    case Union(l, r, _) => Untouched(l, j); Untouched(r, j);
    case With(_, def, body) => Untouched(def, j); Untouched(body, j);
  }

  lemma {:induction false} UntouchedFrom(f: From, j: Job)
    requires AllFrom(f, Unnarrowed(j))
    ensures ApplyFrom(f, j) == f
    decreases f
  {
    match f
    case One(s, _) => UntouchedSource(s, j);
    case Join(l, _, s, _, on) => UntouchedFrom(l, j); UntouchedSource(s, j); UntouchedExpr(on, j);
  }

  lemma {:induction false} UntouchedSource(s: Source, j: Job)
    requires AllSource(s, Unnarrowed(j))
    ensures ApplySource(s, j) == s
    decreases s
  {
    match s
    case Named(_) =>
    case Derived(q) => Untouched(q, j);
  }

  lemma {:induction false} UntouchedExpr(x: Expr, j: Job)
    requires AllExpr(x, Unnarrowed(j))
    ensures ApplyExpr(x, j) == x
    decreases x
  {
    match x
    case Lit(_) =>
    case Col(_, _) =>
    case Cmp(_, l, r) => UntouchedExpr(l, j); UntouchedExpr(r, j);
    case InList(y, _) => UntouchedExpr(y, j);
    case IsNull(y) => UntouchedExpr(y, j);
    case Plus(l, r) => UntouchedExpr(l, j); UntouchedExpr(r, j);
    case Cast(_, y) => UntouchedExpr(y, j);
    case Paren(y) => UntouchedExpr(y, j);
    case Not(y) => UntouchedExpr(y, j);
    case And(l, r) => UntouchedExpr(l, j); UntouchedExpr(r, j);
    case Or(l, r) => UntouchedExpr(l, j); UntouchedExpr(r, j);
    case If(t, l, r) => UntouchedExpr(t, j); UntouchedExpr(l, j); UntouchedExpr(r, j);
    case Agg(_, y) => UntouchedExpr(y, j);
    case Exists(q) => Untouched(q, j);
    case InQuery(y, q) => UntouchedExpr(y, j); Untouched(q, j);
    case Scalar(q) => Untouched(q, j);
  }

  lemma {:induction false} UntouchedItems(items: seq<Item>, j: Job)
    requires AllItems(items, Unnarrowed(j))
    ensures ApplyItems(items, j) == items
    decreases items
  {
    if items != [] {
      UntouchedExpr(items[0].e, j);
      UntouchedItems(items[1..], j);
      assert items == [Item(items[0].name, items[0].e)] + items[1..];
    }
  }

  lemma {:induction false} UntouchedKey(key: GroupItem, j: Job)
    requires AllKey(key, Unnarrowed(j))
    ensures ApplyKey(key, j) == key
    decreases key
  {
    match key
    case ByExpr(x) => UntouchedExpr(x, j);
    case ByName(_) =>
  }

  lemma {:induction false} UntouchedKeys(keys: seq<GroupItem>, j: Job)
    requires AllKeys(keys, Unnarrowed(j))
    ensures ApplyKeys(keys, j) == keys
    decreases keys
  {
    if keys != [] {
      UntouchedKey(keys[0], j);
      UntouchedKeys(keys[1..], j);
      assert keys == [keys[0]] + keys[1..];
    }
  }

  // All of a reader's choices.

  function ApplyAll(q: Query, jobs: seq<Job>): Query {
    if jobs == [] then q else Apply(ApplyAll(q, jobs[..|jobs| - 1]), jobs[|jobs| - 1])
  }

  function ChosenByAll(table: string, jobs: seq<Job>): Row -> bool {
    (r: Row) => forall j :: j in jobs && j.item.table == table ==> Chosen(j.item, j.choice, r)
  }

  /** Every table keeps the rows all its filters choose: the order of the filters is not seen. */
  function RestrictAll(tables: Tables, jobs: seq<Job>): Tables {
    map t | t in tables :: Filter(tables[t], ChosenByAll(t, jobs))
  }

  predicate ReachesAll(q: Query, jobs: seq<Job>) {
    forall j :: j in jobs ==> All(q, Reach(j))
  }

  lemma {:induction false} ApplyAllKeeps(q: Query, jobs: seq<Job>, k: Job)
    ensures All(ApplyAll(q, jobs), Reach(k)) == All(q, Reach(k))
    ensures Narrows(ApplyAll(q, jobs), k) == Narrows(q, k)
  {
    if jobs != [] {
      var j, front := jobs[|jobs| - 1], jobs[..|jobs| - 1];
      ApplyAllKeeps(q, front, k);
      forall n ensures Reach(k)(Apply(n, j)) == Reach(k)(n) && Unnarrowed(k)(Apply(n, j)) == Unnarrowed(k)(n) {
        ApplyKeeps(n, j, k);
      }
      AllApplied(ApplyAll(q, front), j, Reach(k));
      AllApplied(ApplyAll(q, front), j, Unnarrowed(k));
    }
  }

  lemma {:induction false} RestrictOneMoreTable(rows: seq<Row>, table: string, jobs: seq<Job>, j: Job)
    ensures Filter(if table == j.item.table then Filter(rows, ChosenRow(j)) else rows, ChosenByAll(table, jobs))
         == Filter(rows, ChosenByAll(table, jobs + [j]))
  {
    forall r | r in rows
      ensures ChosenByAll(table, jobs + [j])(r)
           == (ChosenByAll(table, jobs)(r) && (j.item.table == table ==> ChosenRow(j)(r)))
    {
    }
    if table == j.item.table {
      FilterTwice(rows, ChosenRow(j), ChosenByAll(table, jobs));
      FilterCong(rows, Both(ChosenRow(j), ChosenByAll(table, jobs)), ChosenByAll(table, jobs + [j]));
    } else {
      FilterCong(rows, ChosenByAll(table, jobs), ChosenByAll(table, jobs + [j]));
    }
  }

  lemma {:induction false} RestrictOneMore(tables: Tables, jobs: seq<Job>, j: Job)
    ensures RestrictAll(Restrict(tables, j), jobs) == RestrictAll(tables, jobs + [j])
  {
    var left, right := RestrictAll(Restrict(tables, j), jobs), RestrictAll(tables, jobs + [j]);
    assert left.Keys == tables.Keys && right.Keys == tables.Keys;
    forall t | t in tables ensures left[t] == right[t] {
      RestrictOneMoreTable(tables[t], t, jobs, j);
    }
  }

  lemma {:induction false} AllFilteredRows(q: Query, jobs: seq<Job>, c: Context, outer: Env)
    requires ReachesAll(q, jobs) && forall j :: j in jobs ==> Ready(c, j)
    ensures Rows(ApplyAll(q, jobs), c, outer) == Rows(q, c.(tables := RestrictAll(c.tables, jobs)), outer)
  {
    if jobs == [] {
      forall t | t in c.tables ensures Filter(c.tables[t], ChosenByAll(t, [])) == c.tables[t] {
        FilterAll(c.tables[t], ChosenByAll(t, []));
      }
      assert RestrictAll(c.tables, jobs) == c.tables;
    } else {
      var j, front := jobs[|jobs| - 1], jobs[..|jobs| - 1];
      assert j in jobs && forall k :: k in front ==> k in jobs;
      ApplyAllKeeps(q, front, j);
      FilteredRows(ApplyAll(q, front), c, outer, j);
      AllFilteredRows(q, front, Restricted(c, j), outer);
      RestrictOneMore(c.tables, front, j);
      assert front + [j] == jobs;
    }
  }

  /** Any order of the same filters, even with repeats, gives the same rows. */
  lemma FilterOrder(q: Query, jobs: seq<Job>, jobs': seq<Job>, c: Context, outer: Env)
    requires ReachesAll(q, jobs) && forall j :: j in jobs ==> Ready(c, j)
    requires forall j :: j in jobs <==> j in jobs'
    ensures Rows(ApplyAll(q, jobs), c, outer) == Rows(ApplyAll(q, jobs'), c, outer)
  {
    AllFilteredRows(q, jobs, c, outer);
    AllFilteredRows(q, jobs', c, outer);
    forall t | t in c.tables
      ensures Filter(c.tables[t], ChosenByAll(t, jobs)) == Filter(c.tables[t], ChosenByAll(t, jobs'))
    {
      FilterCong(c.tables[t], ChosenByAll(t, jobs), ChosenByAll(t, jobs'));
    }
    assert RestrictAll(c.tables, jobs) == RestrictAll(c.tables, jobs');
  }
}
