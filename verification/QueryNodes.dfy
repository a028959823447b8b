/**
 The queries inside a query: itself, its CTEs, its derived tables and its subqueries, at any depth.

 Main result: `AllNodes`, that the walk over a tree meets every one of them and nothing else.
 */
module QueryNodes {
  import opened Sql

  function Nodes(q: Query): set<Query>
    decreases q, 1
  {
    {q} +
    match q
    case Select(from, where, group, having, _, items, _, _) =>
      InFrom(from) + InExpr(where) + InGrouping(group) + InExpr(having) + InItems(items)
    case Union(l, r, _) => Nodes(l) + Nodes(r)
    case With(_, def, body) => Nodes(def) + Nodes(body)
  }

  function InFrom(f: From): set<Query>
    decreases f
  {
    match f
    case One(s, _) => InSource(s)
    case Join(l, _, s, _, on) => InFrom(l) + InSource(s) + InExpr(on)
  }

  function InSource(s: Source): set<Query>
    decreases s
  {
    if s.Derived? then Nodes(s.q) else {}
  }

  function InExpr(x: Expr): set<Query>
    decreases x
  {
    match x
    case Lit(_) => {}
    case Col(_, _) => {}
    case Cmp(_, l, r) => InExpr(l) + InExpr(r)
    case InList(y, _) => InExpr(y)
    case IsNull(y) => InExpr(y)
    case Plus(l, r) => InExpr(l) + InExpr(r)
    case Cast(_, y) => InExpr(y)
    case Paren(y) => InExpr(y)
    case Not(y) => InExpr(y)
    case And(l, r) => InExpr(l) + InExpr(r)
    case Or(l, r) => InExpr(l) + InExpr(r)
    case If(t, l, r) => InExpr(t) + InExpr(l) + InExpr(r)
    case Agg(_, y) => InExpr(y)
    case Exists(q) => Nodes(q)
    case InQuery(y, q) => InExpr(y) + Nodes(q)
    case Scalar(q) => Nodes(q)
  }

  function InItems(items: seq<Item>): set<Query>
    decreases items
  {
    if items == [] then {} else InExpr(items[0].e) + InItems(items[1..])
  }

  function InGrouping(g: Grouping): set<Query>
    decreases g
  {
    match g
    case Whole => {}
    case By(keys) => InKeys(keys)
  }

  function InKey(key: GroupItem): set<Query>
    decreases key
  {
    match key
    case ByExpr(x) => InExpr(x)
    case ByName(_) => {}
  }

  function InKeys(keys: seq<GroupItem>): set<Query>
    decreases keys
  {
    if keys == [] then {} else InKey(keys[0]) + InKeys(keys[1..])
  }

  ghost predicate Every(ns: set<Query>, p: Query -> bool) {
    forall n :: n in ns ==> p(n)
  }

  lemma {:induction false} AllNodes(q: Query, p: Query -> bool)
    ensures All(q, p) <==> Every(Nodes(q), p)
    decreases q, 1
  {
    match q
    case Select(from, where, group, having, _, items, _, _) =>
      AllInFrom(from, p);
      AllInExpr(where, p);
      AllInExpr(having, p);
      AllInItems(items, p);
      if group.By? { AllInKeys(group.keys, p); }
    case Union(l, r, _) => AllNodes(l, p); AllNodes(r, p);
    case With(_, def, body) => AllNodes(def, p); AllNodes(body, p);
  }

  lemma {:induction false} AllInFrom(f: From, p: Query -> bool)
    ensures AllFrom(f, p) <==> Every(InFrom(f), p)
    decreases f
  {
    if f.src.Derived? { AllNodes(f.src.q, p); }
    if f.Join? {
      AllInFrom(f.left, p);
      AllInExpr(f.on, p);
    }
  }

  lemma {:induction false} AllInExpr(x: Expr, p: Query -> bool)
    ensures AllExpr(x, p) <==> Every(InExpr(x), p)
    decreases x
  {
    match x
    case Lit(_) =>
    case Col(_, _) =>
    case Cmp(_, l, r) => AllInExpr(l, p); AllInExpr(r, p);
    case InList(y, _) => AllInExpr(y, p);
    case IsNull(y) => AllInExpr(y, p);
    case Plus(l, r) => AllInExpr(l, p); AllInExpr(r, p);
    case Cast(_, y) => AllInExpr(y, p);
    case Paren(y) => AllInExpr(y, p);
    case Not(y) => AllInExpr(y, p);
    case And(l, r) => AllInExpr(l, p); AllInExpr(r, p);
    case Or(l, r) => AllInExpr(l, p); AllInExpr(r, p);
    case If(t, l, r) => AllInExpr(t, p); AllInExpr(l, p); AllInExpr(r, p);
    case Agg(_, y) => AllInExpr(y, p);
    case Exists(q) => AllNodes(q, p);
    case InQuery(y, q) => AllInExpr(y, p); AllNodes(q, p);
    case Scalar(q) => AllNodes(q, p);
  }

  lemma {:induction false} AllInItems(items: seq<Item>, p: Query -> bool)
    ensures AllItems(items, p) <==> Every(InItems(items), p)
    decreases items
  {
    if items != [] {
      AllInExpr(items[0].e, p);
      AllInItems(items[1..], p);
    }
  }

  lemma {:induction false} AllInKey(key: GroupItem, p: Query -> bool)
    ensures AllKey(key, p) <==> Every(InKey(key), p)
    decreases key
  {
    match key
    case ByExpr(x) => AllInExpr(x, p);
    case ByName(_) =>
  }

  lemma {:induction false} AllInKeys(keys: seq<GroupItem>, p: Query -> bool)
    ensures AllKeys(keys, p) <==> Every(InKeys(keys), p)
    decreases keys
  {
    if keys != [] {
      AllInKey(keys[0], p);
      AllInKeys(keys[1..], p);
    }
  }
}
