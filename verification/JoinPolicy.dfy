/**
 The join graph of one SELECT (app/sql/policy.py): its nodes are the tables of the FROM list, its
 edges the equalities ANDed into WHERE and ONs.  JoinLinks has the check that it is connected.

 Main results: `Connected`, which decides by search, exactly, whether two tables are linked; and
 what a link means for the rows the SELECT keeps.  One made in WHERE or an inner join's ON has a
 true equality, or a true branch of its OR (`LinksHold`); one made in an outer join's ON too,
 unless a side is NULL-padded (`OuterLinksHold`); but a LEFT JOIN keeps every combination of its
 left side, so one between two relations there restricts nothing (`LeftSideKept`).
 */
module JoinPolicy {
  import opened Seqs
  import opened Sql
  import opened Values
  import opened AliasScope
  import opened ColumnTrace

  // Reachability.

  type Edge = set<string>

  predicate Step(edges: set<Edge>, a: string, b: string) {
    exists e :: e in edges && a in e && b in e
  }

  predicate IsPath(edges: set<Edge>, p: seq<string>, a: string, b: string) {
    && |p| > 0 && p[0] == a && p[|p| - 1] == b
    && forall i :: 0 <= i < |p| - 1 ==> Step(edges, p[i], p[i + 1])
  }

  ghost predicate Reaches(edges: set<Edge>, a: string, b: string) {
    exists p :: IsPath(edges, p, a, b)
  }

  lemma ReachesSelf(edges: set<Edge>, a: string)
    ensures Reaches(edges, a, a)
  {
    assert IsPath(edges, [a], a, a);
  }

  lemma ReachesStep(edges: set<Edge>, a: string, b: string, d: string)
    requires Reaches(edges, a, b) && Step(edges, b, d)
    ensures Reaches(edges, a, d)
  {
    var p :| IsPath(edges, p, a, b);
    assert IsPath(edges, p + [d], a, d);
  }

  lemma ReachesBack(edges: set<Edge>, a: string, b: string)
    requires Reaches(edges, a, b)
    ensures Reaches(edges, b, a)
  {
    var p :| IsPath(edges, p, a, b);
    var q := seq(|p|, i requires 0 <= i < |p| => p[|p| - 1 - i]);
    forall i | 0 <= i < |q| - 1 ensures Step(edges, q[i], q[i + 1]) {
      assert Step(edges, p[|p| - 2 - i], p[|p| - 1 - i]);
    }
    assert IsPath(edges, q, b, a);
  }

  lemma ReachesThrough(edges: set<Edge>, a: string, b: string, d: string)
    requires Reaches(edges, a, b) && Reaches(edges, b, d)
    ensures Reaches(edges, a, d)
  {
    var p :| IsPath(edges, p, a, b);
    var q :| IsPath(edges, q, b, d);
    assert IsPath(edges, p + q[1..], a, d);
  }

  /** A set closed under the edges holds all that is reachable from inside it. */
  lemma {:induction false} ClosedHolds(edges: set<Edge>, s: set<string>, p: seq<string>, a: string, b: string)
    requires a in s && forall x, y :: x in s && Step(edges, x, y) ==> y in s
    requires IsPath(edges, p, a, b)
    ensures b in s
  {
    if |p| > 1 {
      assert Step(edges, p[0], p[1]);
      assert IsPath(edges, p[1..], p[1], b) by {
        forall i | 0 <= i < |p[1..]| - 1 ensures Step(edges, p[1..][i], p[1..][i + 1]) {
          assert Step(edges, p[i + 1], p[i + 2]);
        }
      }
      ClosedHolds(edges, s, p[1..], p[1], b);
    }
  }

  /** The tables the edges name, and the start: all the search can ever reach. */
  ghost function Named(edges: set<Edge>, a: string): set<string> {
    {a} + set e, x | e in edges && x in e :: x
  }

  lemma FewerLeft(named: set<string>, s: set<string>, t: set<string>)
    requires s <= t <= named
    ensures |named - t| < |named - s| || s == t
  {
    assert named - s == (named - t) + (t - s);
    assert s != t ==> exists x :: x in t - s;
  }

  /** The search finds exactly what the edges reach, and ends: each round reaches a new table or shortens the frontier. */
  method Connected(a: string, b: string, edges: set<Edge>) returns (connected: bool)
    ensures connected <==> Reaches(edges, a, b)
  {
    var reached, frontier := {a}, [a];
    ReachesSelf(edges, a);
    while frontier != []
      invariant a in reached && reached <= Named(edges, a)
      invariant forall x :: x in reached ==> Reaches(edges, a, x)
      invariant forall x :: x in frontier ==> x in reached
      invariant forall x, y :: x in reached && x !in frontier && Step(edges, x, y) ==> y in reached
      decreases |Named(edges, a) - reached|, |frontier|
    {
      var table := frontier[|frontier| - 1];
      var rest := frontier[..|frontier| - 1];
      assert forall x :: x in frontier <==> x in rest || x == table;
      ghost var before := reached;
      reached, frontier := Expand(table, rest, a, edges, reached);
      FewerLeft(Named(edges, a), before, reached);
    }
    if Reaches(edges, a, b) {
      var p :| IsPath(edges, p, a, b);
      ClosedHolds(edges, reached, p, a, b);
    }
    connected := b in reached;
  }

  /** Adds every table one edge away from `table` that was not yet reached. */
  method Expand(table: string, frontier: seq<string>, ghost a: string, edges: set<Edge>, reached: set<string>)
    returns (reached': set<string>, frontier': seq<string>)
    requires table in reached && reached <= Named(edges, a)
    requires forall x :: x in reached ==> Reaches(edges, a, x)
    requires forall x :: x in frontier ==> x in reached
    ensures reached <= reached' <= Named(edges, a)
    ensures forall x :: x in reached' ==> Reaches(edges, a, x)
    ensures forall y :: Step(edges, table, y) ==> y in reached'
    ensures forall x :: x in frontier' <==> x in frontier || x in reached' - reached
    ensures reached' == reached ==> frontier' == frontier
  {
    reached', frontier' := reached, frontier;
    var todo := edges;
    while todo != {}
      invariant todo <= edges && reached <= reached' <= Named(edges, a)
      invariant forall x :: x in reached' ==> Reaches(edges, a, x)
      invariant forall e, y :: e in edges - todo && table in e && y in e ==> y in reached'
      invariant forall x :: x in frontier' <==> x in frontier || x in reached' - reached
      invariant reached' == reached ==> frontier' == frontier
    {
      var edge :| edge in todo;
      todo := todo - {edge};
      if table in edge {
        var others := edge - {table};
        while others != {}
          invariant others <= edge && reached <= reached' <= Named(edges, a)
          invariant forall x :: x in reached' ==> Reaches(edges, a, x)
          invariant forall e, y :: e in edges - todo - {edge} && table in e && y in e ==> y in reached'
          invariant forall y :: y in edge - others ==> y in reached'
          invariant forall x :: x in frontier' <==> x in frontier || x in reached' - reached
          invariant reached' == reached ==> frontier' == frontier
        {
          var other :| other in others;
          others := others - {other};
          if other !in reached' {
            assert Step(edges, table, other);
            ReachesStep(edges, a, table, other);
            reached', frontier' := reached' + {other}, frontier' + [other];
          }
        }
      }
    }
  }

  // The links of one SELECT.

  /** A FROM-list relation: a physical table, or a CTE or derived table (None). */
  type Relations = map<string, Option<string>>

  /** Authorized relationships, as pairs of (table, column). */
  type Relationships = set<((string, string), (string, string))>

  function RelationsOf(f: From, ctes: set<string>): Relations {
    match f
    case One(s, a) => map[a := RelationOf(s, ctes)]
    case Join(l, _, s, a, _) => RelationsOf(l, ctes)[a := RelationOf(s, ctes)]
  }

  function RelationOf(s: Source, ctes: set<string>): Option<string> {
    if s.Named? && s.table !in ctes then Some(s.table) else None
  }

  /** All aliases of a table are one node; every other relation is a node of its own. */
  function Node(relations: Relations, alias: string): string
    requires alias in relations
  {
    if relations[alias].Some? then "table:" + relations[alias].value else "derived:" + alias
  }

  function Tables(relations: Relations): set<string> {
    set a | a in relations && relations[a].Some? :: Node(relations, a)
  }

  predicate Related(known: Relationships, left: (string, string), right: (string, string)) {
    (left, right) in known || (right, left) in known
  }

  predicate Joinable(relations: Relations, known: Relationships, l: Expr, r: Expr)
    requires l.Col? && r.Col? && l.alias in relations && r.alias in relations
  {
    var a, b := relations[l.alias], relations[r.alias];
    a.None? || b.None? || a == b || Related(known, (a.value, l.name), (b.value, r.name))
  }

  /** The pair of aliases this equality is an edge between: two columns of different relations that may be equated. */
  function EqualityLink(relations: Relations, known: Relationships, x: Expr): Option<set<string>> {
    if !(x.Cmp? && x.op.Eq?) then None
    else
      var l, r := Unwrapped(x.l), Unwrapped(x.r);
      if !l.Col? || !r.Col? || l.alias !in relations || r.alias !in relations || l.alias == r.alias then None
      else if Joinable(relations, known, l, r) then Some({l.alias, r.alias})
      else None
  }

  /** The alternatives of a condition: true where one of them is. */
  function Disjuncts(x: Expr): seq<Expr> {
    match x
    case Paren(y) => Disjuncts(y)
    case Or(l, r) => Disjuncts(l) + Disjuncts(r)
    case _ => [x]
  }

  /** The conditions ANDed into a clause. */
  function Terms(x: Expr): seq<Expr> {
    match x
    case Paren(y) => Terms(y)
    case And(l, r) => Terms(l) + Terms(r)
    case _ => [x]
  }

  function OnTerms(f: From): seq<Expr> {
    if f.One? then [] else OnTerms(f.left) + Terms(f.on)
  }

  function AllTerms(q: Query): seq<Expr>
    requires q.Select?
  {
    OnTerms(q.from) + Terms(q.where)
  }

  /** The link a condition makes: all its branches join the same two relations. */
  function LinkOf(relations: Relations, known: Relationships, x: Expr): Option<set<string>> {
    var parts := Disjuncts(x);
    if parts == [] then None
    else
      var first := EqualityLink(relations, known, parts[0]);
      if first.Some? && forall i :: 0 <= i < |parts| ==> EqualityLink(relations, known, parts[i]) == first
      then first else None
  }

  function NodesOf(relations: Relations, aliases: set<string>): Edge {
    set a | a in aliases && a in relations :: Node(relations, a)
  }

  function Links(q: Query, relations: Relations, known: Relationships): set<Edge>
    requires q.Select?
  {
    set i | 0 <= i < |AllTerms(q)| && LinkOf(relations, known, AllTerms(q)[i]).Some? ::
      NodesOf(relations, LinkOf(relations, known, AllTerms(q)[i]).value)
  }

  ghost predicate AllReach(edges: set<Edge>, tables: set<string>) {
    forall s, t :: s in tables && t in tables ==> Reaches(edges, s, t)
  }

  // What a link means on the rows the SELECT keeps.

  /** The ON conditions true on every combination: those of inner joins no RIGHT or FULL join pads over. */
  function FirmTerms(f: From): seq<Expr> {
    if f.One? then []
    else
      (if f.kind.RightOuter? || f.kind.FullOuter? then [] else FirmTerms(f.left)) +
      (if f.kind.Inner? || f.kind.Cross? then Terms(f.on) else [])
  }

  /** An ON sees only what stands to its left, as PostgreSQL requires. */
  predicate OnsScoped(f: From) {
    f.Join? ==> OnsScoped(f.left) && forall t :: t in OnTerms(f.left) ==> ExprFree(t, f.alias)
  }

  lemma {:induction false} TermHolds(x: Expr, t: Expr, c: Context, e: Env)
    requires IsTrue(Eval(x, c, e, [])) && t in Terms(x)
    ensures IsTrue(Eval(t, c, e, []))
  {
    match x
    case Paren(y) => TermHolds(y, t, c, e);
    case And(l, r) => if t in Terms(l) { TermHolds(l, t, c, e); } else { TermHolds(r, t, c, e); }
    case _ =>
  }

  lemma {:induction false} DisjunctHolds(x: Expr, c: Context, e: Env)
    requires IsTrue(Eval(x, c, e, []))
    ensures exists i :: 0 <= i < |Disjuncts(x)| && IsTrue(Eval(Disjuncts(x)[i], c, e, []))
  {
    match x
    case Paren(y) =>
      DisjunctHolds(y, c, e);
      var i :| 0 <= i < |Disjuncts(y)| && IsTrue(Eval(Disjuncts(y)[i], c, e, []));
      assert Disjuncts(x)[i] == Disjuncts(y)[i];
    case Or(l, r) =>
      if IsTrue(Eval(l, c, e, [])) {
        DisjunctHolds(l, c, e);
        var i :| 0 <= i < |Disjuncts(l)| && IsTrue(Eval(Disjuncts(l)[i], c, e, []));
        assert Disjuncts(x)[i] == Disjuncts(l)[i];
      } else {
        DisjunctHolds(r, c, e);
        var i :| 0 <= i < |Disjuncts(r)| && IsTrue(Eval(Disjuncts(r)[i], c, e, []));
        assert Disjuncts(x)[|Disjuncts(l)| + i] == Disjuncts(r)[i];
      }
    case _ => assert Disjuncts(x)[0] == x;
  }

  lemma MatchExtends(e: Env, alias: string, rows: seq<Row>, ok: Env -> bool, l: Env)
    requires l in Matches(e, alias, rows, ok)
    ensures ok(l) && Same(l, e, alias)
  {
    FilterIn(Map(rows, Extend(e, alias)), ok);
    var i :| 0 <= i < |rows| && l == e[alias := rows[i]];
    assert e[alias := rows[i]] - {alias} == e - {alias};
  }

  lemma InnerFrom(lefts: seq<Env>, alias: string, rows: seq<Row>, ok: Env -> bool, l: Env) returns (e: Env)
    requires l in FlatMap(lefts, InnerStep(alias, rows, ok))
    ensures e in lefts && Same(l, e, alias) && ok(l)
  {
    FlatMapIn(lefts, InnerStep(alias, rows, ok), l);
    e :| e in lefts && l in InnerStep(alias, rows, ok)(e);
    MatchExtends(e, alias, rows, ok, l);
  }

  lemma OuterFrom(lefts: seq<Env>, alias: string, rows: seq<Row>, ok: Env -> bool, l: Env) returns (e: Env)
    requires l in FlatMap(lefts, OuterStep(alias, rows, ok))
    ensures e in lefts && Same(l, e, alias) && (l == e || ok(l))
  {
    FlatMapIn(lefts, OuterStep(alias, rows, ok), l);
    e :| e in lefts && l in OuterStep(alias, rows, ok)(e);
    if l in Matches(e, alias, rows, ok) { MatchExtends(e, alias, rows, ok, l); }
  }

  /** Each combination but a RIGHT or FULL join's padding extends one of the left side, or is one. */
  lemma JoinedFrom(f: From, c: Context, base: Env, l: Env) returns (e: Env)
    requires f.Join? && !f.kind.RightOuter? && !f.kind.FullOuter? && l in FromRows(f, c, base)
    ensures e in FromRows(f.left, c, base) && Same(l, e, f.alias)
    ensures f.kind.Inner? || f.kind.Cross? ==> IsTrue(Eval(f.on, c, base + l, []))
  {
    var lefts, rows, ok := FromRows(f.left, c, base), SourceRows(f.src, c, base), HoldsAbove(f.on, c, base);
    if f.kind.LeftOuter? {
      e := OuterFrom(lefts, f.alias, rows, ok, l);
    } else {
      e := InnerFrom(lefts, f.alias, rows, ok, l);
    }
  }

  lemma {:induction false} FirmTermHolds(f: From, t: Expr, c: Context, base: Env, l: Env)
    requires OnsScoped(f) && t in FirmTerms(f) && l in FromRows(f, c, base)
    ensures IsTrue(Eval(t, c, base + l, []))
  {
    if (f.kind.Inner? || f.kind.Cross?) && t in Terms(f.on) {
      var e := JoinedFrom(f, c, base, l);
      TermHolds(f.on, t, c, base + l);
    } else {
      assert t in FirmTerms(f.left);
      var e := JoinedFrom(f, c, base, l);
      FirmTermHolds(f.left, t, c, base, e);
      FirmIsOn(f.left, t);
      SameBelow(base, l, e, f.alias);
      EvalSame(t, c, base + l, base + e, [], [], f.alias);
    }
  }

  lemma SameBelow(base: Env, l: Env, e: Env, a: string)
    requires Same(l, e, a)
    ensures Same(base + l, base + e, a)
  {
    assert (base + l) - {a} == (base - {a}) + (l - {a});
    assert (base + e) - {a} == (base - {a}) + (e - {a});
  }

  lemma {:induction false} FirmIsOn(f: From, t: Expr)
    requires t in FirmTerms(f)
    ensures t in OnTerms(f)
  {
    if f.Join? && t !in Terms(f.on) { FirmIsOn(f.left, t); }
  }

  /**
   The ON conditions true wherever `a` has a row of its own: those of the join that brings it in,
   a LEFT JOIN's too, with what is firm beside it, and those of later joins that pad only its side.
   */
  function PresentTerms(f: From, a: string): seq<Expr> {
    if f.One? then []
    else if f.alias == a then
      if f.kind.RightOuter? || f.kind.FullOuter? then [] else FirmTerms(f.left) + Terms(f.on)
    else
      PresentTerms(f.left, a) + if f.kind.LeftOuter? || f.kind.FullOuter? then [] else Terms(f.on)
  }

  lemma {:induction false} PresentIsOn(f: From, a: string, t: Expr)
    requires t in PresentTerms(f, a)
    ensures t in OnTerms(f)
  {
    if t !in Terms(f.on) {
      if f.alias == a { FirmIsOn(f.left, t); } else { PresentIsOn(f.left, a, t); }
    }
  }

  /** A combination in which an alias of the left side has a row extends one of the left side, or is one. */
  lemma PresentFrom(f: From, c: Context, base: Env, l: Env, a: string) returns (e: Env)
    requires f.Join? && a != f.alias && a in l && l in FromRows(f, c, base)
    ensures e in FromRows(f.left, c, base) && Same(l, e, f.alias) && a in e
    ensures !f.kind.LeftOuter? && !f.kind.FullOuter? ==> IsTrue(Eval(f.on, c, base + l, []))
  {
    var lefts, rows, ok := FromRows(f.left, c, base), SourceRows(f.src, c, base), HoldsAbove(f.on, c, base);
    assert a in l - {f.alias};
    if l in Unmatched(lefts, f.alias, rows, ok) { UnmatchedRow(lefts, f.alias, rows, ok, l); }
    if f.kind.LeftOuter? || f.kind.FullOuter? {
      e := OuterFrom(lefts, f.alias, rows, ok, l);
    } else {
      e := InnerFrom(lefts, f.alias, rows, ok, l);
    }
    assert a in e - {f.alias};
  }

  /** Where the joined alias of an inner, cross or LEFT JOIN has a row, the ON is true. */
  lemma JoinedTrue(f: From, c: Context, base: Env, l: Env)
    requires f.Join? && !f.kind.RightOuter? && !f.kind.FullOuter? && f.alias !in Aliases(f.left) && DistinctAliases(f.left)
    requires f.alias in l && l in FromRows(f, c, base)
    ensures IsTrue(Eval(f.on, c, base + l, []))
  {
    var lefts, rows, ok := FromRows(f.left, c, base), SourceRows(f.src, c, base), HoldsAbove(f.on, c, base);
    if f.kind.LeftOuter? {
      var e := OuterFrom(lefts, f.alias, rows, ok, l);
      EachRow(f.left, c, base, e);
    } else {
      var e := JoinedFrom(f, c, base, l);
    }
  }

  lemma {:induction false} PresentTermHolds(f: From, a: string, t: Expr, c: Context, base: Env, l: Env)
    requires OnsScoped(f) && DistinctAliases(f) && t in PresentTerms(f, a) && a in l && l in FromRows(f, c, base)
    ensures IsTrue(Eval(t, c, base + l, []))
  {
    if f.alias == a {
      JoinedTrue(f, c, base, l);
      if t in Terms(f.on) {
        TermHolds(f.on, t, c, base + l);
      } else {
        FirmTermHolds(From.Join(f.left, f.kind, f.src, f.alias, f.on), t, c, base, l);
      }
    } else {
      var e := PresentFrom(f, c, base, l, a);
      if t in PresentTerms(f.left, a) {
        PresentTermHolds(f.left, a, t, c, base, e);
        PresentIsOn(f.left, a, t);
        SameBelow(base, l, e, f.alias);
        EvalSame(t, c, base + l, base + e, [], [], f.alias);
      } else {
        TermHolds(f.on, t, c, base + l);
      }
    }
  }

  /** The conditions true on every kept row in which `a` has a row of its own. */
  function HeldTerms(q: Query, a: string): seq<Expr>
    requires q.Select?
  {
    PresentTerms(q.from, a) + Terms(q.where)
  }

  lemma {:induction false} HeldTermHolds(q: Query, a: string, t: Expr, c: Context, outer: Env, e: Env)
    requires q.Select? && OnsScoped(q.from) && DistinctAliases(q.from)
    requires t in HeldTerms(q, a) && a in Aliases(q.from) && a in e && e in Kept(q, c, outer)
    ensures IsTrue(Eval(t, c, e, []))
  {
    var base := Visible(q, outer);
    FilterIn(Map(FromRows(q.from, c, base), Above(base)), Holds(q.where, c));
    if t in Terms(q.where) {
      TermHolds(q.where, t, c, e);
    } else {
      var j :| 0 <= j < |FromRows(q.from, c, base)| && e == base + FromRows(q.from, c, base)[j];
      PresentTermHolds(q.from, a, t, c, base, FromRows(q.from, c, base)[j]);
    }
  }

  /**
   A link made in the ON of a LEFT JOIN, or of any join that pads only the other side: on every row
   the SELECT keeps, it has a true equality between its two relations, or `a` is NULL-padded.
   */
  lemma {:induction false} OuterLinksHold(q: Query, relations: Relations, known: Relationships, c: Context, outer: Env,
                                          t: Expr, a: string, e: Env)
    requires q.Select? && OnsScoped(q.from) && DistinctAliases(q.from) && a in Aliases(q.from)
    requires t in HeldTerms(q, a) && LinkOf(relations, known, t).Some? && e in Kept(q, c, outer)
    ensures a in e ==>
      exists i :: 0 <= i < |Disjuncts(t)| && IsTrue(Eval(Disjuncts(t)[i], c, e, []))
                  && EqualityLink(relations, known, Disjuncts(t)[i]) == LinkOf(relations, known, t)
  {
    if a in e {
      HeldTermHolds(q, a, t, c, outer, e);
      DisjunctHolds(t, c, e);
    }
  }

  // A link that restricts nothing.

  /** A LEFT or FULL JOIN keeps each combination of its left side, whatever its ON asks of them. */
  lemma {:induction false} LeftSideKept(f: From, c: Context, base: Env, e: Env) returns (l: Env)
    requires f.Join? && (f.kind.LeftOuter? || f.kind.FullOuter?) && e in FromRows(f.left, c, base)
    ensures l in FromRows(f, c, base) && Same(l, e, f.alias)
  {
    var lefts, rows, ok := FromRows(f.left, c, base), SourceRows(f.src, c, base), HoldsAbove(f.on, c, base);
    l := OuterStep(f.alias, rows, ok)(e)[0];
    assert l in OuterStep(f.alias, rows, ok)(e);
    FlatMapIn(lefts, OuterStep(f.alias, rows, ok), l);
    OuterIn(f.kind, lefts, f.alias, rows, ok, l);
    if l in Matches(e, f.alias, rows, ok) { MatchExtends(e, f.alias, rows, ok, l); }
  }

  lemma OuterIn(kind: JoinKind, lefts: seq<Env>, alias: string, rows: seq<Row>, ok: Env -> bool, l: Env)
    requires (kind.LeftOuter? || kind.FullOuter?) && l in FlatMap(lefts, OuterStep(alias, rows, ok))
    ensures l in JoinRows(kind, lefts, alias, rows, ok)
  {
  }

  /** FROM x CROSS JOIN y LEFT JOIN z ON x.k = y.k AND z.k = y.k, each alias a table of that name */
  function IdleFrom(x: string, y: string, z: string, k: string): From {
    Join(Join(One(Source.Named(x), x), Cross, Source.Named(y), y, TRUE), LeftOuter, Source.Named(z), z,
         And(Equated(x, y, k), Equated(z, y, k)))
  }

  function Equated(x: string, y: string, k: string): Expr {
    Cmp(Eq, Col(x, k), Col(y, k))
  }

  function Idle(x: string, y: string, z: string, k: string, items: seq<Item>): Query {
    Select(IdleFrom(x, y, z, k), TRUE, Whole, TRUE, false, items, false, None)
  }

  lemma IdleKept(x: string, y: string, z: string, k: string, items: seq<Item>, c: Context, outer: Env, r: Row, s: Row)
    returns (e: Env)
    requires x != y && y != z && x != z
    requires x !in c.ctes && y !in c.ctes && x in c.tables && y in c.tables && r in c.tables[x] && s in c.tables[y]
    ensures e in Kept(Idle(x, y, z, k, items), c, outer) && RowOf(e, x) == r && RowOf(e, y) == s
  {
    var q := Idle(x, y, z, k, items);
    var base := Visible(q, outer);
    var pair := CrossPair(x, y, z, k, c, base, r, s);
    var l := LeftSideKept(q.from, c, base, pair);
    e := base + l;
    SameOver(base, l, pair, z, x);
    SameOver(base, l, pair, z, y);
    UnfilteredKeeps(q, c, outer, l);
  }

  lemma SameOver(base: Env, l: Env, e: Env, a: string, b: string)
    requires Same(l, e, a) && b != a && b in e
    ensures RowOf(base + l, b) == e[b]
  {
    assert b in e - {a} && e - {a} == l - {a};
  }

  lemma UnfilteredKeeps(q: Query, c: Context, outer: Env, l: Env)
    requires q.Select? && q.where == TRUE && l in FromRows(q.from, c, Visible(q, outer))
    ensures Visible(q, outer) + l in Kept(q, c, outer)
  {
    var base := Visible(q, outer);
    var froms := FromRows(q.from, c, base);
    var i :| 0 <= i < |froms| && froms[i] == l;
    assert Map(froms, Above(base))[i] == base + l && Holds(TRUE, c)(base + l);
    FilterIn(Map(froms, Above(base)), Holds(TRUE, c));
  }

  lemma CrossPair(x: string, y: string, z: string, k: string, c: Context, base: Env, r: Row, s: Row) returns (pair: Env)
    requires x != y && x !in c.ctes && y !in c.ctes && x in c.tables && y in c.tables
    requires r in c.tables[x] && s in c.tables[y]
    ensures pair == map[x := r][y := s] && pair in FromRows(IdleFrom(x, y, z, k).left, c, base)
  {
    var f := IdleFrom(x, y, z, k).left;
    var lefts, rows, ok := FromRows(f.left, c, base), SourceRows(f.src, c, base), HoldsAbove(f.on, c, base);
    pair := map[x := r][y := s];
    var i :| 0 <= i < |c.tables[x]| && c.tables[x][i] == r;
    assert SourceRows(Source.Named(x), c, base) == c.tables[x] && rows == c.tables[y];
    assert FromRows(One(Source.Named(x), x), c, base)[i] == map[x := r];
    var j :| 0 <= j < |rows| && rows[j] == s;
    assert Map(rows, Extend(lefts[i], y))[j] == pair && ok(pair);
    FilterIn(Map(rows, Extend(lefts[i], y)), ok);
    assert pair in InnerStep(y, rows, ok)(lefts[i]);
    FlatMapIn(lefts, InnerStep(y, rows, ok), pair);
  }

  lemma EquatedLinks(x: string, y: string, k: string, relations: Relations, known: Relationships)
    requires x != y && x in relations && y in relations && relations[x] == Some(x) && relations[y] == Some(y)
    requires ((x, k), (y, k)) in known
    ensures LinkOf(relations, known, Equated(x, y, k)) == Some({x, y})
    ensures Node(relations, x) in NodesOf(relations, {x, y}) && Node(relations, y) in NodesOf(relations, {x, y})
  {
    assert Disjuncts(Equated(x, y, k)) == [Equated(x, y, k)];
  }

  lemma IdleTerms(x: string, y: string, z: string, k: string, items: seq<Item>)
    ensures AllTerms(Idle(x, y, z, k, items)) == [TRUE, Equated(x, y, k), Equated(z, y, k), TRUE]
  {
    var f := IdleFrom(x, y, z, k);
    assert Terms(TRUE) == [TRUE] && Terms(f.on.l) == [Equated(x, y, k)] && Terms(f.on.r) == [Equated(z, y, k)];
    assert OnTerms(f.left.left) == [] && OnTerms(f.left) == [TRUE];
  }

  lemma LinkIn(q: Query, relations: Relations, known: Relationships, i: nat)
    requires q.Select? && i < |AllTerms(q)| && LinkOf(relations, known, AllTerms(q)[i]).Some?
    ensures NodesOf(relations, LinkOf(relations, known, AllTerms(q)[i]).value) in Links(q, relations, known)
  {
  }

  lemma IdleRelations(x: string, y: string, z: string, k: string)
    ensures RelationsOf(IdleFrom(x, y, z, k), {}) == map[x := Some(x)][y := Some(y)][z := Some(z)]
  {
    var f := IdleFrom(x, y, z, k);
    assert RelationsOf(f.left.left, {}) == map[x := Some(x)];
    assert RelationsOf(f.left, {}) == map[x := Some(x)][y := Some(y)];
  }

  lemma IdleLinks(x: string, y: string, z: string, k: string, items: seq<Item>, known: Relationships)
    requires x != y && y != z && x != z && {((x, k), (y, k)), ((z, k), (y, k))} <= known
    ensures var relations := RelationsOf(IdleFrom(x, y, z, k), {});
            AllReach(Links(Idle(x, y, z, k, items), relations, known), Tables(relations))
  {
    var q, relations := Idle(x, y, z, k, items), map[x := Some(x)][y := Some(y)][z := Some(z)];
    IdleTerms(x, y, z, k, items);
    IdleRelations(x, y, z, k);
    EquatedLinks(x, y, k, relations, known);
    EquatedLinks(z, y, k, relations, known);
    LinkIn(q, relations, known, 1);
    LinkIn(q, relations, known, 2);
    ThreeReach(Links(q, relations, known), relations, x, y, z);
  }

  lemma ThreeReach(edges: set<Edge>, relations: Relations, x: string, y: string, z: string)
    requires relations.Keys == {x, y, z}
    requires NodesOf(relations, {x, y}) in edges && NodesOf(relations, {z, y}) in edges
    ensures AllReach(edges, Tables(relations))
  {
    StarReaches(edges, Node(relations, x), Node(relations, y), Node(relations, z),
                NodesOf(relations, {x, y}), NodesOf(relations, {z, y}));
  }

  lemma StarReaches(edges: set<Edge>, x: string, y: string, z: string, xy: Edge, zy: Edge)
    requires xy in edges && zy in edges && x in xy && y in xy && z in zy && y in zy
    ensures AllReach(edges, {x, y, z})
  {
    assert Step(edges, y, x) && Step(edges, y, z);
    ReachesSelf(edges, y);
    ReachesStep(edges, y, y, x);
    ReachesStep(edges, y, y, z);
    forall s, t | s in {x, y, z} && t in {x, y, z} ensures Reaches(edges, s, t) {
      ReachesBack(edges, y, s);
      ReachesThrough(edges, s, y, t);
    }
  }

  /** A link made in WHERE or a firm ON has, on every row the SELECT keeps, a true equality between its two relations. */
  lemma {:induction false} LinksHold(q: Query, relations: Relations, known: Relationships, c: Context, outer: Env,
                                     t: Expr, e: Env)
    requires q.Select? && OnsScoped(q.from)
    requires t in FirmTerms(q.from) + Terms(q.where) && LinkOf(relations, known, t).Some?
    requires e in Kept(q, c, outer)
    ensures exists i :: 0 <= i < |Disjuncts(t)| && IsTrue(Eval(Disjuncts(t)[i], c, e, []))
              && EqualityLink(relations, known, Disjuncts(t)[i]) == LinkOf(relations, known, t)
  {
    var base := Visible(q, outer);
    FilterIn(Map(FromRows(q.from, c, base), Above(base)), Holds(q.where, c));
    if t in Terms(q.where) {
      TermHolds(q.where, t, c, e);
    } else {
      var j :| 0 <= j < |FromRows(q.from, c, base)| && e == base + FromRows(q.from, c, base)[j];
      FirmTermHolds(q.from, t, c, base, FromRows(q.from, c, base)[j]);
    }
    DisjunctHolds(t, c, e);
  }
}
