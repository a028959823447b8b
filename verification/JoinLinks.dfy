/**
 Which tables of a SELECT are joined (app/sql/policy.py), said of its clauses: without the graph
 the check builds.

 Main results: `UnlinkedTables`, which reports none exactly when any two tables are joined by a
 way of authorized conditions ANDed into WHERE or an ON; `TablesChained`, that under inner and
 cross joins each row kept then has true equalities all along such a way; and `IdleJoin`, that
 under a LEFT JOIN a way may restrict nothing.
 */
module JoinLinks {
  import opened Seqs
  import opened Sql
  import opened Values
  import opened ColumnTrace
  import opened JoinPolicy

  // The clauses, read directly.

  predicate IsOn(f: From, x: Expr) {
    f.Join? && (x == f.on || IsOn(f.left, x))
  }

  predicate Anded(t: Expr, x: Expr) {
    match x
    case Paren(y) => Anded(t, y)
    case And(l, r) => Anded(t, l) || Anded(t, r)
    case _ => t == x
  }

  /** Whether each alternative of a condition is such a one. */
  predicate EachAlternative(x: Expr, p: Expr -> bool) {
    match x
    case Paren(y) => EachAlternative(y, p)
    case Or(l, r) => EachAlternative(l, p) && EachAlternative(r, p)
    case _ => p(x)
  }

  /** A column, casts and parentheses aside. */
  predicate IsColumn(x: Expr, alias: string, name: string) {
    match x
    case Col(a, n) => a == alias && n == name
    case Cast(_, y) => IsColumn(y, alias, name)
    case Paren(y) => IsColumn(y, alias, name)
    case _ => false
  }

  /** The alias stands for this table of the database. */
  predicate StandsFor(f: From, ctes: set<string>, alias: string, table: string) {
    if f.alias == alias then f.src == Source.Named(table) && table !in ctes
    else f.Join? && StandsFor(f.left, ctes, alias, table)
  }

  ghost predicate IsRead(f: From, ctes: set<string>, table: string) {
    exists a :: StandsFor(f, ctes, a, table)
  }

  ghost predicate SameTable(f: From, ctes: set<string>, a: string, b: string) {
    a == b || exists t :: StandsFor(f, ctes, a, t) && StandsFor(f, ctes, b, t)
  }

  /** Columns of two aliases may be equated: one table's, an authorized pair, or one that is no table's. */
  ghost predicate MayEquate(f: From, ctes: set<string>, known: Relationships, a: string, m: string, b: string, n: string) {
    forall t, u :: StandsFor(f, ctes, a, t) && StandsFor(f, ctes, b, u) && t != u ==>
      ((t, m), (u, n)) in known || ((u, n), (t, m)) in known
  }

  ghost predicate EquatesColumns(f: From, ctes: set<string>, known: Relationships, x: Expr, a: string, b: string) {
    && x.Cmp? && x.op == Eq
    && exists m, n :: ((IsColumn(x.l, a, m) && IsColumn(x.r, b, n)) || (IsColumn(x.l, b, n) && IsColumn(x.r, a, m)))
                      && MayEquate(f, ctes, known, a, m, b, n)
  }

  ghost function Equating(f: From, ctes: set<string>, known: Relationships, a: string, b: string): Expr -> bool {
    (x: Expr) => EquatesColumns(f, ctes, known, x, a, b)
  }

  /** A condition ANDed into WHERE or an ON, each alternative of which equates columns of these two aliases. */
  ghost predicate Joins(q: Query, ctes: set<string>, known: Relationships, a: string, b: string)
    requires q.Select?
  {
    a != b && exists t, x :: (x == q.where || IsOn(q.from, x)) && Anded(t, x)
                             && EachAlternative(t, Equating(q.from, ctes, known, a, b))
  }

  ghost predicate Next(q: Query, ctes: set<string>, known: Relationships, a: string, b: string)
    requires q.Select?
  {
    a in Aliases(q.from) && b in Aliases(q.from) && (SameTable(q.from, ctes, a, b) || Joins(q, ctes, known, a, b))
  }

  ghost predicate IsWay(q: Query, ctes: set<string>, known: Relationships, p: seq<string>, a: string, b: string)
    requires q.Select?
  {
    && |p| > 0 && p[0] == a && p[|p| - 1] == b
    && forall i :: 0 <= i < |p| - 1 ==> Next(q, ctes, known, p[i], p[i + 1])
  }

  /** From alias to alias, each step within one table or by a condition that joins the two. */
  ghost predicate Way(q: Query, ctes: set<string>, known: Relationships, a: string, b: string)
    requires q.Select?
  {
    exists p :: IsWay(q, ctes, known, p, a, b)
  }

  ghost predicate AllJoined(q: Query, ctes: set<string>, known: Relationships)
    requires q.Select?
  {
    forall a, b, t, u :: StandsFor(q.from, ctes, a, t) && StandsFor(q.from, ctes, b, u) ==> Way(q, ctes, known, a, b)
  }

  // The graph's parts are these.

  lemma {:induction false} TermsAnded(x: Expr, t: Expr)
    ensures t in Terms(x) <==> Anded(t, x)
  {
    match x
    case Paren(y) => TermsAnded(y, t);
    case And(l, r) => TermsAnded(l, t); TermsAnded(r, t);
    case _ =>
  }

  lemma {:induction false} OnTermsAnded(f: From, t: Expr)
    ensures t in OnTerms(f) <==> exists x :: IsOn(f, x) && Anded(t, x)
  {
    if f.Join? {
      OnTermsAnded(f.left, t);
      TermsAnded(f.on, t);
      if t in Terms(f.on) { assert IsOn(f, f.on) && Anded(t, f.on); }
      if x :| IsOn(f.left, x) && Anded(t, x) { assert IsOn(f, x); }
    }
  }

  lemma {:induction false} DisjunctsEach(x: Expr, p: Expr -> bool)
    ensures EachAlternative(x, p) <==> forall d :: d in Disjuncts(x) ==> p(d)
  {
    match x
    case Paren(y) => DisjunctsEach(y, p);
    case Or(l, r) =>
      DisjunctsEach(l, p);
      DisjunctsEach(r, p);
    case _ =>
  }

  lemma {:induction false} DisjunctsSome(x: Expr)
    ensures Disjuncts(x) != []
  {
    match x
    case Paren(y) => DisjunctsSome(y);
    case Or(l, r) => DisjunctsSome(l);
    case _ =>
  }

  lemma {:induction false} ColumnIs(x: Expr, alias: string, name: string)
    ensures IsColumn(x, alias, name) <==> Unwrapped(x) == Col(alias, name)
  {
    match x
    case Cast(_, y) => ColumnIs(y, alias, name);
    case Paren(y) => ColumnIs(y, alias, name);
    case _ =>
  }

  lemma {:induction false} RelationsAre(f: From, ctes: set<string>, alias: string, table: string)
    ensures alias in RelationsOf(f, ctes) <==> alias in Aliases(f)
    ensures StandsFor(f, ctes, alias, table) <==> alias in RelationsOf(f, ctes) && RelationsOf(f, ctes)[alias] == Some(table)
  {
    if f.Join? { RelationsAre(f.left, ctes, alias, table); }
  }

  lemma {:induction false} EqualityIs(f: From, ctes: set<string>, known: Relationships, x: Expr, a: string, b: string)
    requires a != b && a in Aliases(f) && b in Aliases(f)
    ensures EquatesColumns(f, ctes, known, x, a, b) <==> EqualityLink(RelationsOf(f, ctes), known, x) == Some({a, b})
  {
    forall alias, table
      ensures StandsFor(f, ctes, alias, table) <==> alias in RelationsOf(f, ctes) && RelationsOf(f, ctes)[alias] == Some(table)
    {
      RelationsAre(f, ctes, alias, table);
    }
    RelationsAre(f, ctes, a, "");
    RelationsAre(f, ctes, b, "");
    if x.Cmp? {
      forall alias, name ensures IsColumn(x.l, alias, name) <==> Unwrapped(x.l) == Col(alias, name) {
        ColumnIs(x.l, alias, name);
      }
      forall alias, name ensures IsColumn(x.r, alias, name) <==> Unwrapped(x.r) == Col(alias, name) {
        ColumnIs(x.r, alias, name);
      }
      ColumnsJoinable(f, ctes, known, x, a, b);
    }
  }

  lemma {:induction false} ColumnsJoinable(f: From, ctes: set<string>, known: Relationships, x: Expr, a: string, b: string)
    requires a != b && a in RelationsOf(f, ctes) && b in RelationsOf(f, ctes) && x.Cmp?
    requires forall alias, table ::
      StandsFor(f, ctes, alias, table) <==> alias in RelationsOf(f, ctes) && RelationsOf(f, ctes)[alias] == Some(table)
    requires forall alias, name :: IsColumn(x.l, alias, name) <==> Unwrapped(x.l) == Col(alias, name)
    requires forall alias, name :: IsColumn(x.r, alias, name) <==> Unwrapped(x.r) == Col(alias, name)
    ensures EquatesColumns(f, ctes, known, x, a, b) <==> EqualityLink(RelationsOf(f, ctes), known, x) == Some({a, b})
  {
    var relations, l, r := RelationsOf(f, ctes), Unwrapped(x.l), Unwrapped(x.r);
    if x.op.Eq? && l.Col? && r.Col? && l.alias in relations && r.alias in relations {
      assert MayEquate(f, ctes, known, l.alias, l.name, r.alias, r.name) <==> Joinable(relations, known, l, r);
      assert MayEquate(f, ctes, known, r.alias, r.name, l.alias, l.name) <==> Joinable(relations, known, l, r);
      assert IsColumn(x.l, l.alias, l.name) && IsColumn(x.r, r.alias, r.name);
      assert {l.alias, r.alias} == {a, b} <==> (l.alias == a && r.alias == b) || (l.alias == b && r.alias == a);
    }
  }

  lemma AlternativesAre(f: From, ctes: set<string>, known: Relationships, t: Expr, a: string, b: string)
    requires a != b && a in Aliases(f) && b in Aliases(f)
    ensures EachAlternative(t, Equating(f, ctes, known, a, b)) <==> LinkOf(RelationsOf(f, ctes), known, t) == Some({a, b})
  {
    DisjunctsEach(t, Equating(f, ctes, known, a, b));
    DisjunctsSome(t);
    forall i | 0 <= i < |Disjuncts(t)|
      ensures Equating(f, ctes, known, a, b)(Disjuncts(t)[i])
         <==> EqualityLink(RelationsOf(f, ctes), known, Disjuncts(t)[i]) == Some({a, b})
    {
      EqualityIs(f, ctes, known, Disjuncts(t)[i], a, b);
    }
  }

  lemma LinkShape(relations: Relations, known: Relationships, t: Expr) returns (a: string, b: string)
    requires LinkOf(relations, known, t).Some?
    ensures a != b && a in relations && b in relations && LinkOf(relations, known, t) == Some({a, b})
  {
    var x := Disjuncts(t)[0];
    a, b := Unwrapped(x.l).alias, Unwrapped(x.r).alias;
  }

  lemma TermIs(q: Query, t: Expr)
    requires q.Select?
    ensures t in AllTerms(q) <==> exists x :: (x == q.where || IsOn(q.from, x)) && Anded(t, x)
  {
    OnTermsAnded(q.from, t);
    TermsAnded(q.where, t);
  }

  lemma JoinsIsLink(q: Query, ctes: set<string>, known: Relationships, a: string, b: string)
    requires q.Select? && a in Aliases(q.from) && b in Aliases(q.from) && Joins(q, ctes, known, a, b)
    ensures NodesOf(RelationsOf(q.from, ctes), {a, b}) in Links(q, RelationsOf(q.from, ctes), known)
  {
    var t, x :| (x == q.where || IsOn(q.from, x)) && Anded(t, x) && EachAlternative(t, Equating(q.from, ctes, known, a, b));
    assert exists y :: (y == q.where || IsOn(q.from, y)) && Anded(t, y);
    TermIs(q, t);
    AlternativesAre(q.from, ctes, known, t, a, b);
    var i :| 0 <= i < |AllTerms(q)| && AllTerms(q)[i] == t;
    LinkIn(q, RelationsOf(q.from, ctes), known, i);
  }

  lemma LinkIsJoins(q: Query, ctes: set<string>, known: Relationships, e: Edge) returns (a: string, b: string)
    requires q.Select? && e in Links(q, RelationsOf(q.from, ctes), known)
    ensures a in Aliases(q.from) && b in Aliases(q.from) && e == NodesOf(RelationsOf(q.from, ctes), {a, b})
    ensures Joins(q, ctes, known, a, b) && Joins(q, ctes, known, b, a)
  {
    var relations := RelationsOf(q.from, ctes);
    var i :| 0 <= i < |AllTerms(q)| && LinkOf(relations, known, AllTerms(q)[i]).Some?
             && e == NodesOf(relations, LinkOf(relations, known, AllTerms(q)[i]).value);
    var t := AllTerms(q)[i];
    a, b := LinkShape(relations, known, t);
    RelationsAre(q.from, ctes, a, "");
    RelationsAre(q.from, ctes, b, "");
    TermIs(q, t);
    AlternativesAre(q.from, ctes, known, t, a, b);
    AlternativesAre(q.from, ctes, known, t, b, a);
    assert {a, b} == {b, a};
  }

  lemma NodeIs(f: From, ctes: set<string>, a: string, b: string)
    requires a in Aliases(f) && b in Aliases(f)
    ensures a in RelationsOf(f, ctes) && b in RelationsOf(f, ctes)
    ensures Node(RelationsOf(f, ctes), a) == Node(RelationsOf(f, ctes), b) <==> SameTable(f, ctes, a, b)
  {
    var relations := RelationsOf(f, ctes);
    RelationsAre(f, ctes, a, "");
    RelationsAre(f, ctes, b, "");
    forall t ensures StandsFor(f, ctes, a, t) <==> relations[a] == Some(t) { RelationsAre(f, ctes, a, t); }
    forall t ensures StandsFor(f, ctes, b, t) <==> relations[b] == Some(t) { RelationsAre(f, ctes, b, t); }
    NodesApart(relations, a, b);
  }

  lemma NodesApart(relations: Relations, a: string, b: string)
    requires a in relations && b in relations
    ensures Node(relations, a) == Node(relations, b) <==> a == b || (relations[a].Some? && relations[a] == relations[b])
  {
    var n, m := Node(relations, a), Node(relations, b);
    if relations[a].Some? {
      assert n[0] == 't' && n[6..] == relations[a].value;
    } else {
      assert n[0] == 'd' && n[8..] == a;
    }
    if relations[b].Some? {
      assert m[0] == 't' && m[6..] == relations[b].value;
    } else {
      assert m[0] == 'd' && m[8..] == b;
    }
  }

  // Ways and paths.

  lemma {:induction false} WayReaches(q: Query, ctes: set<string>, known: Relationships, p: seq<string>, a: string, b: string)
    requires q.Select? && a in Aliases(q.from) && IsWay(q, ctes, known, p, a, b)
    ensures b in Aliases(q.from) && a in RelationsOf(q.from, ctes) && b in RelationsOf(q.from, ctes)
    ensures Reaches(Links(q, RelationsOf(q.from, ctes), known), Node(RelationsOf(q.from, ctes), a), Node(RelationsOf(q.from, ctes), b))
  {
    var relations := RelationsOf(q.from, ctes);
    var edges := Links(q, relations, known);
    NodeIs(q.from, ctes, a, a);
    if |p| == 1 {
      ReachesSelf(edges, Node(relations, a));
    } else {
      var front, m := p[..|p| - 1], p[|p| - 2];
      assert forall i :: 0 <= i < |front| - 1 ==> Next(q, ctes, known, p[i], p[i + 1]);
      WayReaches(q, ctes, known, front, a, m);
      assert Next(q, ctes, known, p[|p| - 2], p[|p| - 2 + 1]);
      NodeIs(q.from, ctes, m, b);
      if !SameTable(q.from, ctes, m, b) {
        JoinsIsLink(q, ctes, known, m, b);
        assert Step(edges, Node(relations, m), Node(relations, b));
        ReachesStep(edges, Node(relations, a), Node(relations, m), Node(relations, b));
      }
    }
  }

  lemma WayMore(q: Query, ctes: set<string>, known: Relationships, a: string, b: string, d: string)
    requires q.Select? && Way(q, ctes, known, a, b) && Next(q, ctes, known, b, d)
    ensures Way(q, ctes, known, a, d)
  {
    var p :| IsWay(q, ctes, known, p, a, b);
    assert IsWay(q, ctes, known, p + [d], a, d);
  }

  lemma WayOn(q: Query, ctes: set<string>, known: Relationships, a: string, m: string, n: string, b: string)
    requires q.Select? && Way(q, ctes, known, a, m) && (m == n || Joins(q, ctes, known, m, n))
    requires m in Aliases(q.from) && n in Aliases(q.from) && b in Aliases(q.from)
    requires n in RelationsOf(q.from, ctes) && b in RelationsOf(q.from, ctes)
    requires Node(RelationsOf(q.from, ctes), n) == Node(RelationsOf(q.from, ctes), b)
    ensures Way(q, ctes, known, a, b)
  {
    if m != n { WayMore(q, ctes, known, a, m, n); }
    NodeIs(q.from, ctes, n, b);
    WayMore(q, ctes, known, a, n, b);
  }

  lemma StepAliases(q: Query, ctes: set<string>, known: Relationships, s: string, t: string) returns (m: string, n: string)
    requires q.Select? && Step(Links(q, RelationsOf(q.from, ctes), known), s, t)
    ensures m in Aliases(q.from) && n in Aliases(q.from) && m in RelationsOf(q.from, ctes) && n in RelationsOf(q.from, ctes)
    ensures Node(RelationsOf(q.from, ctes), m) == s && Node(RelationsOf(q.from, ctes), n) == t
    ensures m == n || Joins(q, ctes, known, m, n)
  {
    var relations := RelationsOf(q.from, ctes);
    var e :| e in Links(q, relations, known) && s in e && t in e;
    var l, r := LinkIsJoins(q, ctes, known, e);
    NodeIs(q.from, ctes, l, r);
    m := if Node(relations, l) == s then l else r;
    n := if Node(relations, l) == t then l else r;
  }

  lemma {:induction false} PathIsWay(q: Query, ctes: set<string>, known: Relationships, p: seq<string>, a: string, b: string)
    requires q.Select? && a in Aliases(q.from) && b in Aliases(q.from)
    requires a in RelationsOf(q.from, ctes) && b in RelationsOf(q.from, ctes)
    requires IsPath(Links(q, RelationsOf(q.from, ctes), known), p, Node(RelationsOf(q.from, ctes), a), Node(RelationsOf(q.from, ctes), b))
    ensures Way(q, ctes, known, a, b)
  {
    var relations := RelationsOf(q.from, ctes);
    var edges := Links(q, relations, known);
    if |p| == 1 {
      NodeIs(q.from, ctes, a, b);
      assert IsWay(q, ctes, known, [a, b], a, b);
    } else {
      var front := p[..|p| - 1];
      assert Step(edges, p[|p| - 2], p[|p| - 2 + 1]);
      var m, n := StepAliases(q, ctes, known, p[|p| - 2], p[|p| - 1]);
      assert forall i :: 0 <= i < |front| - 1 ==> Step(edges, p[i], p[i + 1]);
      PathIsWay(q, ctes, known, front, a, m);
      WayOn(q, ctes, known, a, m, n, b);
    }
  }

  /** The paths of the graph are the ways of the clauses. */
  lemma WayIsPath(q: Query, ctes: set<string>, known: Relationships, a: string, b: string)
    requires q.Select? && a in Aliases(q.from) && b in Aliases(q.from)
    ensures a in RelationsOf(q.from, ctes) && b in RelationsOf(q.from, ctes)
    ensures Way(q, ctes, known, a, b)
       <==> Reaches(Links(q, RelationsOf(q.from, ctes), known), Node(RelationsOf(q.from, ctes), a), Node(RelationsOf(q.from, ctes), b))
  {
    var relations := RelationsOf(q.from, ctes);
    NodeIs(q.from, ctes, a, b);
    if p :| IsWay(q, ctes, known, p, a, b) {
      WayReaches(q, ctes, known, p, a, b);
    }
    if p :| IsPath(Links(q, relations, known), p, Node(relations, a), Node(relations, b)) {
      PathIsWay(q, ctes, known, p, a, b);
    }
  }

  // The check.

  lemma TableNode(f: From, ctes: set<string>, a: string, t: string)
    requires StandsFor(f, ctes, a, t)
    ensures a in Aliases(f) && a in RelationsOf(f, ctes) && Node(RelationsOf(f, ctes), a) == "table:" + t
  {
    RelationsAre(f, ctes, a, t);
  }

  lemma SameWay(q: Query, ctes: set<string>, known: Relationships, s: string, t: string, a: string, b: string)
    requires q.Select? && StandsFor(q.from, ctes, a, s) && StandsFor(q.from, ctes, b, t)
    ensures Way(q, ctes, known, a, b)
       <==> Reaches(Links(q, RelationsOf(q.from, ctes), known), "table:" + s, "table:" + t)
  {
    TableNode(q.from, ctes, a, s);
    TableNode(q.from, ctes, b, t);
    WayIsPath(q, ctes, known, a, b);
  }

  /**
   A pair of tables no two aliases of which are joined; none exactly when any two aliases of tables
   are.  `tables` are the ones the FROM list reads.
   */
  method UnlinkedTables(q: Query, ctes: set<string>, known: Relationships, tables: seq<string>)
    returns (unlinked: Option<(string, string)>)
    requires q.Select? && forall t :: t in tables <==> IsRead(q.from, ctes, t)
    ensures unlinked.None? <==> AllJoined(q, ctes, known)
    ensures unlinked.Some? ==>
      && unlinked.value.0 in tables && unlinked.value.1 in tables
      && forall a, b :: StandsFor(q.from, ctes, a, unlinked.value.0) && StandsFor(q.from, ctes, b, unlinked.value.1) ==>
           !Way(q, ctes, known, a, b)
  {
    var edges := Links(q, RelationsOf(q.from, ctes), known);
    if |tables| > 0 { ReachesSelf(edges, "table:" + tables[0]); }
    for i := 0 to |tables|
      invariant forall t :: t in tables[..i] ==> Reaches(edges, "table:" + tables[0], "table:" + t)
    {
      if i > 0 {
        var connected := Connected("table:" + tables[0], "table:" + tables[i], edges);
        if !connected {
          NotJoined(q, ctes, known, tables[0], tables[i]);
          return Some((tables[0], tables[i]));
        }
      }
      assert forall t :: t in tables[..i + 1] <==> t in tables[..i] || t == tables[i];
    }
    assert tables[..|tables|] == tables;
    FromFirst(q, ctes, known, tables);
    unlinked := None;
  }

  lemma NotJoined(q: Query, ctes: set<string>, known: Relationships, s: string, t: string)
    requires q.Select? && !Reaches(Links(q, RelationsOf(q.from, ctes), known), "table:" + s, "table:" + t)
    requires IsRead(q.from, ctes, s) && IsRead(q.from, ctes, t)
    ensures forall a, b :: StandsFor(q.from, ctes, a, s) && StandsFor(q.from, ctes, b, t) ==> !Way(q, ctes, known, a, b)
    ensures !AllJoined(q, ctes, known)
  {
    forall a, b | StandsFor(q.from, ctes, a, s) && StandsFor(q.from, ctes, b, t) ensures !Way(q, ctes, known, a, b) {
      SameWay(q, ctes, known, s, t, a, b);
    }
  }

  /** Tables all reached from one of them are all joined. */
  lemma FromFirst(q: Query, ctes: set<string>, known: Relationships, tables: seq<string>)
    requires q.Select? && forall t :: t in tables <==> IsRead(q.from, ctes, t)
    requires forall t :: t in tables ==>
      Reaches(Links(q, RelationsOf(q.from, ctes), known), "table:" + tables[0], "table:" + t)
    ensures AllJoined(q, ctes, known)
  {
    var edges := Links(q, RelationsOf(q.from, ctes), known);
    forall a, b, s, t | StandsFor(q.from, ctes, a, s) && StandsFor(q.from, ctes, b, t) ensures Way(q, ctes, known, a, b) {
      assert IsRead(q.from, ctes, s) && IsRead(q.from, ctes, t);
      assert s in tables && t in tables;
      ReachesBack(edges, "table:" + tables[0], "table:" + s);
      ReachesThrough(edges, "table:" + s, "table:" + tables[0], "table:" + t);
      SameWay(q, ctes, known, s, t, a, b);
    }
  }

  /** Reaching each other in the graph is being joined. */
  lemma ReachJoins(q: Query, ctes: set<string>, known: Relationships)
    requires q.Select? && AllReach(Links(q, RelationsOf(q.from, ctes), known), JoinPolicy.Tables(RelationsOf(q.from, ctes)))
    ensures AllJoined(q, ctes, known)
  {
    forall a, b, s, t | StandsFor(q.from, ctes, a, s) && StandsFor(q.from, ctes, b, t) ensures Way(q, ctes, known, a, b) {
      RelationsAre(q.from, ctes, a, s);
      RelationsAre(q.from, ctes, b, t);
      SameWay(q, ctes, known, s, t, a, b);
    }
  }

  /**
   A condition of a LEFT JOIN's ON between two relations of its left side joins them, so no table is
   reported unlinked, yet every pair of their rows is kept.
   */
  lemma IdleJoin(x: string, y: string, z: string, k: string, items: seq<Item>, known: Relationships, c: Context,
                 outer: Env, r: Row, s: Row) returns (e: Env)
    requires x != y && y != z && x != z && {((x, k), (y, k)), ((z, k), (y, k))} <= known
    requires x !in c.ctes && y !in c.ctes && x in c.tables && y in c.tables && r in c.tables[x] && s in c.tables[y]
    ensures AllJoined(Idle(x, y, z, k, items), {}, known)
    ensures e in Kept(Idle(x, y, z, k, items), c, outer) && RowOf(e, x) == r && RowOf(e, y) == s
  {
    IdleLinks(x, y, z, k, items, known);
    e := IdleKept(x, y, z, k, items, c, outer, r, s);
    ReachJoins(Idle(x, y, z, k, items), {}, known);
  }

  // On the rows kept.

  predicate InnerOnly(f: From) {
    f.Join? ==> (f.kind.Inner? || f.kind.Cross?) && InnerOnly(f.left)
  }

  lemma {:induction false} InnerIsFirm(f: From)
    requires InnerOnly(f)
    ensures FirmTerms(f) == OnTerms(f)
  {
    if f.Join? { InnerIsFirm(f.left); }
  }

  predicate IsAlternative(d: Expr, x: Expr) {
    match x
    case Paren(y) => IsAlternative(d, y)
    case Or(l, r) => IsAlternative(d, l) || IsAlternative(d, r)
    case _ => d == x
  }

  ghost predicate Asked(q: Query, d: Expr)
    requires q.Select?
  {
    exists t, x :: (x == q.where || IsOn(q.from, x)) && Anded(t, x) && IsAlternative(d, t)
  }

  lemma {:induction false} DisjunctsAre(x: Expr, d: Expr)
    ensures d in Disjuncts(x) <==> IsAlternative(d, x)
  {
    match x
    case Paren(y) => DisjunctsAre(y, d);
    case Or(l, r) => DisjunctsAre(l, d); DisjunctsAre(r, d);
    case _ =>
  }

  /** An equality the SELECT asks, alone or as an alternative of an OR, that is true of the row. */
  ghost predicate EqualOn(q: Query, ctes: set<string>, known: Relationships, c: Context, e: Env, a: string, b: string)
    requires q.Select?
  {
    exists x :: EquatesColumns(q.from, ctes, known, x, a, b) && Asked(q, x) && IsTrue(Eval(x, c, e, []))
  }

  ghost predicate IsChain(q: Query, ctes: set<string>, known: Relationships, c: Context, e: Env, p: seq<string>)
    requires q.Select?
  {
    forall i :: 0 <= i < |p| - 1 ==> SameTable(q.from, ctes, p[i], p[i + 1]) || EqualOn(q, ctes, known, c, e, p[i], p[i + 1])
  }

  lemma JoinsHold(q: Query, ctes: set<string>, known: Relationships, c: Context, outer: Env, e: Env, a: string, b: string)
    requires q.Select? && OnsScoped(q.from) && InnerOnly(q.from) && e in Kept(q, c, outer)
    requires a in Aliases(q.from) && b in Aliases(q.from) && Joins(q, ctes, known, a, b)
    ensures EqualOn(q, ctes, known, c, e, a, b)
  {
    InnerIsFirm(q.from);
    var t, x :| (x == q.where || IsOn(q.from, x)) && Anded(t, x) && EachAlternative(t, Equating(q.from, ctes, known, a, b));
    assert exists y :: (y == q.where || IsOn(q.from, y)) && Anded(t, y);
    TermIs(q, t);
    AlternativesAre(q.from, ctes, known, t, a, b);
    LinksHold(q, RelationsOf(q.from, ctes), known, c, outer, t, e);
    var i :| 0 <= i < |Disjuncts(t)| && IsTrue(Eval(Disjuncts(t)[i], c, e, []))
             && EqualityLink(RelationsOf(q.from, ctes), known, Disjuncts(t)[i]) == LinkOf(RelationsOf(q.from, ctes), known, t);
    EqualityIs(q.from, ctes, known, Disjuncts(t)[i], a, b);
    DisjunctsAre(t, Disjuncts(t)[i]);
    assert Asked(q, Disjuncts(t)[i]);
  }

  /**
   In a SELECT of inner and cross joins that reports no unlinked pair, on every row it keeps, any two
   aliases of tables are joined by a chain of authorized equalities true of that row.
   */
  lemma TablesChained(q: Query, ctes: set<string>, known: Relationships, c: Context, outer: Env, e: Env, a: string, b: string,
                      s: string, t: string)
    returns (p: seq<string>)
    requires q.Select? && OnsScoped(q.from) && InnerOnly(q.from) && e in Kept(q, c, outer) && AllJoined(q, ctes, known)
    requires StandsFor(q.from, ctes, a, s) && StandsFor(q.from, ctes, b, t)
    ensures |p| > 0 && p[0] == a && p[|p| - 1] == b && IsChain(q, ctes, known, c, e, p)
  {
    p :| IsWay(q, ctes, known, p, a, b);
    forall i | 0 <= i < |p| - 1
      ensures SameTable(q.from, ctes, p[i], p[i + 1]) || EqualOn(q, ctes, known, c, e, p[i], p[i + 1])
    {
      assert Next(q, ctes, known, p[i], p[i + 1]);
      if !SameTable(q.from, ctes, p[i], p[i + 1]) {
        JoinsHold(q, ctes, known, c, outer, e, p[i], p[i + 1]);
      }
    }
  }
}
