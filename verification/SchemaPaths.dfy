/**
 Choosing the tables between the ones a question names (app/retrieval/context.py): a bounded
 breadth-first search over the relationships of the catalog.

 Main results: `ShortestPath`, a path of least length when one exists within the depth and
 nothing otherwise, and `ExpandRelationships`, which adds every table of such a path for each
 pair of seeds in reach.
 */
module SchemaPaths {
  import opened Seqs

  type Adjacency = map<string, set<string>>

  type Path = seq<string>

  function Next(adjacency: Adjacency, table: string): set<string> {
    if table in adjacency then adjacency[table] else {}
  }

  predicate IsPath(adjacency: Adjacency, p: Path) {
    p != [] && forall i :: 0 <= i < |p| - 1 ==> p[i + 1] in Next(adjacency, p[i])
  }

  predicate Joins(adjacency: Adjacency, p: Path, start: string, target: string) {
    IsPath(adjacency, p) && p[0] == start && p[|p| - 1] == target
  }

  /** A path of least length. */
  ghost predicate Shortest(adjacency: Adjacency, p: Path, start: string, target: string) {
    Joins(adjacency, p, start, target) && forall q :: Joins(adjacency, q, start, target) ==> |p| <= |q|
  }

  /** Within `d` steps of the start. */
  ghost predicate Near(adjacency: Adjacency, start: string, x: string, d: nat)
    decreases d
  {
    if d == 0 then x == start
    else Near(adjacency, start, x, d - 1) || exists y :: Near(adjacency, start, y, d - 1) && x in Next(adjacency, y)
  }

  lemma {:induction false} NearMore(adjacency: Adjacency, start: string, x: string, d: nat, e: nat)
    requires d <= e && Near(adjacency, start, x, d)
    ensures Near(adjacency, start, x, e)
  {
    if d < e { NearMore(adjacency, start, x, d, e - 1); }
  }

  lemma {:induction false} PathNear(adjacency: Adjacency, p: Path)
    requires IsPath(adjacency, p)
    ensures Near(adjacency, p[0], p[|p| - 1], |p| - 1)
  {
    if |p| > 1 {
      PathNear(adjacency, p[..|p| - 1]);
      assert p[|p| - 1] in Next(adjacency, p[|p| - 2]);
    }
  }

  // The search.

  /** A queued path is a least one to its table, and within the depth. */
  ghost predicate Queued(adjacency: Adjacency, start: string, p: Path, depth: nat) {
    && IsPath(adjacency, p) && p[0] == start && |p| - 1 <= depth
    && (|p| > 1 ==> !Near(adjacency, start, p[|p| - 1], |p| - 2))
  }

  function Last(p: Path): string
    requires p != []
  {
    p[|p| - 1]
  }

  ghost predicate QueueHolds(adjacency: Adjacency, start: string, queue: seq<Path>, depth: nat) {
    && (forall i :: 0 <= i < |queue| ==> Queued(adjacency, start, queue[i], depth))
    && (forall i, j :: 0 <= i < j < |queue| ==> |queue[i]| <= |queue[j]| <= |queue[0]| + 1)
  }

  /** A table searched from led to all its neighbours, unless it was at the depth. */
  ghost predicate Spent(adjacency: Adjacency, start: string, x: string, visited: set<string>, depth: nat) {
    Next(adjacency, x) <= visited || depth == 0 || !Near(adjacency, start, x, depth - 1)
  }

  ghost predicate Waiting(queue: seq<Path>, x: string) {
    exists i :: 0 <= i < |queue| && queue[i] != [] && Last(queue[i]) == x
  }

  ghost predicate Searched(adjacency: Adjacency, start: string, visited: set<string>, queue: seq<Path>, depth: nat) {
    start in visited && forall x :: x in visited ==> Waiting(queue, x) || Spent(adjacency, start, x, visited, depth)
  }

  /** Every table nearer than the head of the queue, or as near, has been visited. */
  lemma {:induction false} NearVisited(adjacency: Adjacency, start: string, visited: set<string>, queue: seq<Path>,
                                       depth: nat, bound: nat, x: string, d: nat)
    requires QueueHolds(adjacency, start, queue, depth) && Searched(adjacency, start, visited, queue, depth)
    requires queue != [] ==> bound <= |queue[0]| - 1
    requires d <= bound && d <= depth && Near(adjacency, start, x, d)
    ensures x in visited
    decreases d
  {
    if d > 0 {
      if Near(adjacency, start, x, d - 1) {
        NearVisited(adjacency, start, visited, queue, depth, bound, x, d - 1);
      } else {
        var y :| Near(adjacency, start, y, d - 1) && x in Next(adjacency, y);
        NearVisited(adjacency, start, visited, queue, depth, bound, y, d - 1);
        NearMore(adjacency, start, y, d - 1, depth - 1);
        if Waiting(queue, y) {
          var i :| 0 <= i < |queue| && queue[i] != [] && Last(queue[i]) == y;
          assert Queued(adjacency, start, queue[i], depth) && |queue[0]| <= |queue[i]|;
          NearMore(adjacency, start, y, d - 1, |queue[i]| - 2);
        }
      }
    }
  }

  ghost function Tables(adjacency: Adjacency, start: string): set<string> {
    {start} + set t, x | t in adjacency && x in adjacency[t] :: x
  }

  lemma Fewer(all: set<string>, s: set<string>, t: set<string>)
    requires s < t <= all
    ensures |all - t| < |all - s|
  {
    assert all - s == (all - t) + (t - s);
    assert exists x :: x in t - s;
  }

  /** A path at the depth is dropped without searching from its table. */
  lemma Popped(adjacency: Adjacency, start: string, visited: set<string>, queue: seq<Path>, depth: nat)
    requires queue != [] && QueueHolds(adjacency, start, queue, depth)
    requires Searched(adjacency, start, visited, queue, depth) && |queue[0]| - 1 >= depth
    ensures QueueHolds(adjacency, start, queue[1..], depth) && Searched(adjacency, start, visited, queue[1..], depth)
  {
    assert Queued(adjacency, start, queue[0], depth);
    forall x | x in visited ensures Waiting(queue[1..], x) || Spent(adjacency, start, x, visited, depth) {
    }
  }

  ghost predicate Grown(adjacency: Adjacency, start: string, queue: seq<Path>, size: nat, depth: nat) {
    forall i :: 0 <= i < |queue| ==> Queued(adjacency, start, queue[i], depth) && |queue[i]| == size
  }

  lemma WaitingMore(a: seq<Path>, b: seq<Path>, x: string)
    requires Waiting(a, x) || Waiting(b, x)
    ensures Waiting(a + b, x)
  {
    if Waiting(a, x) {
      var i :| 0 <= i < |a| && a[i] != [] && Last(a[i]) == x;
      assert (a + b)[i] == a[i];
    } else {
      var i :| 0 <= i < |b| && b[i] != [] && Last(b[i]) == x;
      assert (a + b)[|a| + i] == b[i];
    }
  }

  lemma GrownSearched(adjacency: Adjacency, start: string, visited: set<string>, visited': set<string>,
                      queue: seq<Path>, more: seq<Path>, depth: nat)
    requires queue != [] && queue[0] != [] && Searched(adjacency, start, visited, queue, depth)
    requires visited <= visited' && Next(adjacency, Last(queue[0])) <= visited'
    requires forall x :: x in visited' - visited ==> Waiting(more, x)
    ensures Searched(adjacency, start, visited', queue[1..] + more, depth)
  {
    forall x | x in visited' ensures Waiting(queue[1..] + more, x) || Spent(adjacency, start, x, visited', depth) {
      if x !in visited {
        WaitingMore(queue[1..], more, x);
      } else if Waiting(queue, x) && x != Last(queue[0]) {
        WaitingMore(queue[1..], more, x);
      }
    }
  }

  /** Replaces the head of the queue by its extensions to tables not visited yet. */
  method Grow(adjacency: Adjacency, ghost start: string, visited: set<string>, queue: seq<Path>, ghost depth: nat)
    returns (queue': seq<Path>, visited': set<string>)
    requires queue != [] && QueueHolds(adjacency, start, queue, depth) && |queue[0]| - 1 < depth
    requires Searched(adjacency, start, visited, queue, depth) && visited <= Tables(adjacency, start)
    ensures QueueHolds(adjacency, start, queue', depth) && Searched(adjacency, start, visited', queue', depth)
    ensures visited <= visited' <= Tables(adjacency, start)
    ensures forall x :: x in visited' && (x in visited ==> Waiting(queue[1..], x)) ==> Waiting(queue', x)
    ensures visited' == visited ==> queue' == queue[1..]
  {
    var p := queue[0];
    assert Queued(adjacency, start, p, depth);
    var todo := Next(adjacency, Last(p));
    var more: seq<Path> := [];
    visited' := visited;
    while todo != {}
      invariant todo <= Next(adjacency, Last(p)) <= todo + visited'
      invariant visited <= visited' <= Tables(adjacency, start)
      invariant Grown(adjacency, start, more, |p| + 1, depth)
      invariant forall x :: x in visited' - visited ==> Waiting(more, x)
      invariant visited' == visited ==> more == []
    {
      var neighbor :| neighbor in todo;
      todo := todo - {neighbor};
      if neighbor !in visited' {
        Extended(adjacency, start, visited, queue, depth, neighbor);
        forall x | x in visited' - visited ensures Waiting(more + [p + [neighbor]], x) {
          WaitingMore(more, [p + [neighbor]], x);
        }
        assert (more + [p + [neighbor]])[|more|] == p + [neighbor];
        visited', more := visited' + {neighbor}, more + [p + [neighbor]];
      }
    }
    queue' := queue[1..] + more;
    GrownSearched(adjacency, start, visited, visited', queue, more, depth);
    forall x | x in visited' && (x in visited ==> Waiting(queue[1..], x)) ensures Waiting(queue', x) {
      WaitingMore(queue[1..], more, x);
    }
  }

  lemma Extended(adjacency: Adjacency, start: string, visited: set<string>, queue: seq<Path>, depth: nat, neighbor: string)
    requires queue != [] && QueueHolds(adjacency, start, queue, depth) && |queue[0]| - 1 < depth
    requires Searched(adjacency, start, visited, queue, depth)
    requires neighbor !in visited && queue[0] != [] && neighbor in Next(adjacency, Last(queue[0]))
    ensures Queued(adjacency, start, queue[0] + [neighbor], depth) && neighbor in Tables(adjacency, start)
  {
    var p := queue[0];
    assert Queued(adjacency, start, p, depth);
    if Near(adjacency, start, neighbor, |p| - 1) {
      NearVisited(adjacency, start, visited, queue, depth, |p| - 1, neighbor, |p| - 1);
    }
    var q := p + [neighbor];
    forall i | 0 <= i < |q| - 1 ensures q[i + 1] in Next(adjacency, q[i]) {
      assert i < |p| - 1 ==> p[i + 1] in Next(adjacency, p[i]);
    }
  }

  method ShortestPath(adjacency: Adjacency, start: string, target: string, depth: nat) returns (path: Path)
    ensures path != [] ==> Shortest(adjacency, path, start, target) && |path| - 1 <= depth
    ensures path == [] <==> !exists q :: Joins(adjacency, q, start, target) && |q| - 1 <= depth
  {
    var queue, visited: set<string> := [[start]], {start};
    while queue != []
      invariant QueueHolds(adjacency, start, queue, depth) && Searched(adjacency, start, visited, queue, depth)
      invariant visited <= Tables(adjacency, start)
      invariant target in visited ==> Waiting(queue, target)
      decreases |Tables(adjacency, start) - visited|, |queue|
    {
      var p, current := queue[0], Last(queue[0]);
      if current == target {
        Least(adjacency, start, p, depth);
        assert Joins(adjacency, p, start, target) && |p| - 1 <= depth;
        return p;
      }
      ghost var before := visited;
      if |p| - 1 >= depth {
        Popped(adjacency, start, visited, queue, depth);
        queue := queue[1..];
      } else {
        queue, visited := Grow(adjacency, start, visited, queue, depth);
        if before != visited { Fewer(Tables(adjacency, start), before, visited); }
      }
    }
    forall q | Joins(adjacency, q, start, target) ensures |q| - 1 > depth {
      PathNear(adjacency, q);
      if |q| - 1 <= depth { NearVisited(adjacency, start, visited, queue, depth, |q| - 1, target, |q| - 1); }
    }
    path := [];
  }

  lemma Least(adjacency: Adjacency, start: string, p: Path, depth: nat)
    requires Queued(adjacency, start, p, depth)
    ensures Shortest(adjacency, p, start, Last(p))
  {
    forall q | Joins(adjacency, q, start, Last(p)) ensures |p| <= |q| {
      PathNear(adjacency, q);
      if |q| < |p| { NearMore(adjacency, start, Last(p), |q| - 1, |p| - 2); }
    }
  }

  /** A readable table on a shortest path, within the depth, between two of the seeds. */
  ghost predicate Between(adjacency: Adjacency, seeds: seq<string>, queryable: set<string>, depth: nat, t: string) {
    t in queryable &&
    exists i, j, p :: 0 <= i < j < |seeds| && Shortest(adjacency, p, seeds[i], seeds[j]) && |p| - 1 <= depth && t in p
  }

  /** The seeds, and every table of a shortest path between two of them in reach, where it may be read; no other. */
  method ExpandRelationships(seeds: seq<string>, adjacency: Adjacency, queryable: set<string>, depth: nat)
    returns (selected: set<string>)
    ensures forall t :: t in seeds ==> t in selected
    ensures depth > 0 ==> forall i, j :: 0 <= i < j < |seeds| ==>
      Covered(adjacency, selected, queryable, seeds[i], seeds[j], depth)
    ensures forall t :: t in selected ==> t in seeds || (depth > 0 && Between(adjacency, seeds, queryable, depth, t))
  {
    selected := set t | t in seeds;
    if depth == 0 || |seeds| < 2 {
      return;
    }
    for i := 0 to |seeds|
      invariant forall t :: t in seeds ==> t in selected
      invariant forall t :: t in selected ==> t in seeds || Between(adjacency, seeds, queryable, depth, t)
      invariant forall a, b :: 0 <= a < i && a < b < |seeds| ==> Covered(adjacency, selected, queryable, seeds[a], seeds[b], depth)
    {
      for j := i + 1 to |seeds|
        invariant forall t :: t in seeds ==> t in selected
        invariant forall t :: t in selected ==> t in seeds || Between(adjacency, seeds, queryable, depth, t)
        invariant forall a, b :: 0 <= a < i && a < b < |seeds| ==> Covered(adjacency, selected, queryable, seeds[a], seeds[b], depth)
        invariant forall b :: i < b < j ==> Covered(adjacency, selected, queryable, seeds[i], seeds[b], depth)
      {
        var path := ShortestPath(adjacency, seeds[i], seeds[j], depth);
        ghost var before := selected;
        selected := selected + set t | t in path && t in queryable;
        CoveredMore(adjacency, before, selected, queryable, seeds, depth);
        if path != [] { assert Shows(adjacency, path, selected, queryable, seeds[i], seeds[j]); }
      }
    }
  }

  ghost predicate Shows(adjacency: Adjacency, p: Path, selected: set<string>, queryable: set<string>, s: string, t: string) {
    Shortest(adjacency, p, s, t) && forall x :: x in p && x in queryable ==> x in selected
  }

  /** Two tables out of reach of each other, or joined by a shortest path that is selected. */
  ghost predicate Covered(adjacency: Adjacency, selected: set<string>, queryable: set<string>, s: string, t: string, depth: nat) {
    (exists q :: Joins(adjacency, q, s, t) && |q| - 1 <= depth) ==>
      exists p :: Shows(adjacency, p, selected, queryable, s, t)
  }

  lemma CoveredMore(adjacency: Adjacency, before: set<string>, after: set<string>, queryable: set<string>,
                    seeds: seq<string>, depth: nat)
    requires before <= after
    ensures forall s, t :: Covered(adjacency, before, queryable, s, t, depth) ==> Covered(adjacency, after, queryable, s, t, depth)
  {
    forall s, t, p | Shows(adjacency, p, before, queryable, s, t) ensures Shows(adjacency, p, after, queryable, s, t) {
    }
  }
}
