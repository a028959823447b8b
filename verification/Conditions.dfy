/**
 Numbered conditions of a query and their edits (app/sql/explain.py).  A query is its WHERE and
 ON clauses in reading order; each is a tree whose leaves compare columns with literals.

 Main results: `EditsCommute`; `ReadsBack`, that a value edit changes nothing but the edited
 condition's values exactly when every new literal reads as the condition's kind, and
 `Vanishes` for mixed kinds; `DropKeepsRest`, that dropping a removable condition keeps
 exactly the rows the other conjuncts keep, and `DropUnderNot`, that under a NOT it keeps none.
 */
module Conditions {
  import opened Seqs
  import opened Sql
  import opened Values

  const MAX_CONDITIONS := 12
  const MAX_VALUES := 50

  datatype ValueKind = AsText | AsNumber | AsDate

  datatype Literal = Numeral(text: string) | Quoted(text: string) | DateCast(text: string)

  datatype Operand = Column(name: string) | Const(literal: Literal) | Computed(n: nat)

  datatype Operator = Equal | NotEqual | Greater | GreaterEqual | Less | LessEqual | Like

  datatype Atom =
    | Comparison(op: Operator, left: Operand, right: Operand)
    | Among(column: Operand, items: seq<Operand>)
    | Between(column: Operand, low: Operand, high: Operand)
    | Always
    | Opaque(n: nat)

  datatype Clause =
    | Leaf(a: Atom)
    | Negated(c: Clause)
    | Grouped(c: Clause)
    | Both(l: Clause, r: Clause)
    | Either(l: Clause, r: Clause)

  // Nodes by their path: false is the only or the left child.

  type Path = seq<bool>

  function At(c: Clause, p: Path): Option<Clause>
    decreases p
  {
    if p == [] then Some(c)
    else match c
      case Leaf(_) => None
      case Negated(x) => if p[0] then None else At(x, p[1..])
      case Grouped(x) => if p[0] then None else At(x, p[1..])
      case Both(l, r) => At(if p[0] then r else l, p[1..])
      case Either(l, r) => At(if p[0] then r else l, p[1..])
  }

  function Put(c: Clause, p: Path, x: Clause): Clause
    decreases p
  {
    if p == [] then x
    else match c
      case Leaf(_) => c
      case Negated(y) => if p[0] then c else Negated(Put(y, p[1..], x))
      case Grouped(y) => if p[0] then c else Grouped(Put(y, p[1..], x))
      case Both(l, r) => if p[0] then Both(l, Put(r, p[1..], x)) else Both(Put(l, p[1..], x), r)
      case Either(l, r) => if p[0] then Either(l, Put(r, p[1..], x)) else Either(Put(l, p[1..], x), r)
  }

  predicate IsLeaf(c: Clause, p: Path) {
    At(c, p).Some? && At(c, p).value.Leaf?
  }

  function Height(c: Clause): nat {
    match c
    case Leaf(_) => 0
    case Negated(x) => 1 + Height(x)
    case Grouped(x) => 1 + Height(x)
    case Both(l, r) => 1 + if Height(l) < Height(r) then Height(r) else Height(l)
    case Either(l, r) => 1 + if Height(l) < Height(r) then Height(r) else Height(l)
  }

  function Under(side: bool): Path -> Path { (p: Path) => [side] + p }

  /** The nodes at a depth, left to right. */
  function Level(c: Clause, n: nat): seq<Path>
    decreases n
  {
    if n == 0 then [[]]
    else match c
      case Leaf(_) => []
      case Negated(x) => Map(Level(x, n - 1), Under(false))
      case Grouped(x) => Map(Level(x, n - 1), Under(false))
      case Both(l, r) => Map(Level(l, n - 1), Under(false)) + Map(Level(r, n - 1), Under(true))
      case Either(l, r) => Map(Level(l, n - 1), Under(false)) + Map(Level(r, n - 1), Under(true))
  }

  /** The breadth-first walk of the tree. */
  function Walk(c: Clause, depth: nat): seq<Path> {
    if depth == 0 then Level(c, 0) else Walk(c, depth - 1) + Level(c, depth)
  }

  // Reading one node as a condition.

  predicate IsoDay(s: string) {
    |s| >= 10 && s[4] == '-' && s[7] == '-' && forall i :: 0 <= i < 10 && i != 4 && i != 7 ==> '0' <= s[i] <= '9'
  }

  function KindOf(l: Literal): ValueKind {
    match l
    case Numeral(_) => AsNumber
    case Quoted(t) => if IsoDay(t) then AsDate else AsText
    case DateCast(_) => AsDate
  }

  datatype Reading = Reading(column: string, op: Operator, values: seq<string>, kind: ValueKind)

  function ColumnOf(a: Atom): Option<string> {
    match a
    case Among(Column(n), _) => Some(n)
    case Between(Column(n), _, _) => Some(n)
    case Comparison(_, Column(n), _) => Some(n)
    case Comparison(_, _, Column(n)) => Some(n)
    case _ => None
  }

  /** The operands the column is compared with. */
  function Compared(a: Atom): seq<Operand> {
    match a
    case Among(_, items) => items
    case Between(_, low, high) => [low, high]
    case Comparison(_, l, r) => if l.Column? then [r] else [l]
    case _ => []
  }

  function Flip(op: Operator): Operator {
    match op
    case Greater => Less
    case GreaterEqual => LessEqual
    case Less => Greater
    case LessEqual => GreaterEqual
    case _ => op
  }

  /** What a comparison says of two numbers; `like` stands for LIKE, whose sides are a value and a pattern. */
  predicate Relates(op: Operator, v: int, w: int, like: (int, int) -> bool) {
    match op
    case Equal => v == w
    case NotEqual => v != w
    case Greater => v > w
    case GreaterEqual => v >= w
    case Less => v < w
    case LessEqual => v <= w
    case Like => like(v, w)
  }

  /**
   A comparison is read column first, whichever side the column is on, and means the same: but a
   LIKE with the column as its pattern is read the other way round, which is another condition
   unless LIKE holds both ways or neither.
   */
  lemma ColumnFirst(op: Operator, left: Operand, right: Operand, value: Operand -> int, like: (int, int) -> bool)
    requires left.Column? || right.Column?
    ensures var a := Comparison(op, left, right);
      |Compared(a)| == 1 &&
      var column := if left.Column? then left else right;
      (Relates(op, value(left), value(right), like) == Relates(OperatorOf(a), value(column), value(Compared(a)[0]), like)
       <==> left.Column? || op != Like || like(value(left), value(right)) == like(value(right), value(left)))
  {
  }

  function OperatorOf(a: Atom): Operator {
    match a
    case Comparison(op, l, _) => if l.Column? then op else Flip(op)
    case _ => Equal
  }

  predicate AllConst(items: seq<Operand>) {
    forall i :: 0 <= i < |items| ==> items[i].Const?
  }

  predicate OneKind(items: seq<Operand>)
    requires AllConst(items)
  {
    forall i :: 0 <= i < |items| ==> KindOf(items[i].literal) == KindOf(items[0].literal)
  }

  function Texts(items: seq<Operand>): seq<string>
    requires AllConst(items)
  {
    seq(|items|, i requires 0 <= i < |items| => items[i].literal.text)
  }

  /** A node is a condition when it compares a column with literals of one kind. */
  predicate Readable(a: Atom) {
    var items := Compared(a);
    ColumnOf(a).Some? && 0 < |items| <= MAX_VALUES && AllConst(items) && OneKind(items)
  }

  function Read(a: Atom): Reading
    requires Readable(a)
  {
    var items := Compared(a);
    Reading(ColumnOf(a).value, OperatorOf(a), Texts(items), KindOf(items[0].literal))
  }

  predicate UnderNot(c: Clause, p: Path) {
    p != [] && At(c, p[..|p| - 1]).Some? && At(c, p[..|p| - 1]).value.Negated?
  }

  /** Reached from the clause through ANDs and parentheses alone. */
  predicate OnSpine(c: Clause, p: Path)
    decreases p
  {
    p == [] ||
    match c
    case Grouped(x) => !p[0] && OnSpine(x, p[1..])
    case Both(l, r) => OnSpine(if p[0] then r else l, p[1..])
    case _ => false
  }

  predicate Removable(c: Clause, p: Path) {
    if UnderNot(c, p) then OnSpine(c, p[..|p| - 1]) else OnSpine(c, p)
  }

  // The numbered conditions of a query.

  type Position = (nat, Path)

  datatype Condition = Condition(at: Position, column: string, op: Operator, negated: bool,
                                 values: seq<string>, kind: ValueKind, removable: bool)

  function In(clause: nat): Path -> Position { (p: Path) => (clause, p) }

  /** Every node of the query, clause by clause. */
  function Positions(clauses: seq<Clause>, n: nat): seq<Position>
    requires n <= |clauses|
  {
    if n == 0 then []
    else Positions(clauses, n - 1) + Map(Walk(clauses[n - 1], Height(clauses[n - 1])), In(n - 1))
  }

  predicate IsCondition(clauses: seq<Clause>, at: Position) {
    at.0 < |clauses| && IsLeaf(clauses[at.0], at.1) && Readable(At(clauses[at.0], at.1).value.a)
  }

  function Conditional(clauses: seq<Clause>): Position -> bool { (at: Position) => IsCondition(clauses, at) }

  function Describe(clauses: seq<Clause>, at: Position): Condition
    requires IsCondition(clauses, at)
  {
    var c := clauses[at.0];
    var read := Read(At(c, at.1).value.a);
    Condition(at, read.column, read.op, UnderNot(c, at.1), read.values, read.kind, Removable(c, at.1))
  }

  /** Where the numbered conditions are; the numbering stops at the limit. */
  function Found(clauses: seq<Clause>): (found: seq<Position>)
    ensures forall i :: 0 <= i < |found| ==> IsCondition(clauses, found[i])
  {
    var all := Filter(Positions(clauses, |clauses|), Conditional(clauses));
    FilterIn(Positions(clauses, |clauses|), Conditional(clauses));
    assert forall i :: 0 <= i < |all| ==> all[i] in all;
    if |all| <= MAX_CONDITIONS then all else all[..MAX_CONDITIONS]
  }

  // Edits.

  datatype Edit = Values(index: nat, values: seq<string>) | Remove(index: nat)

  datatype Result<T> = Ok(value: T) | Err

  predicate IsDigits(s: string) {
    |s| > 0 && forall i :: 0 <= i < |s| ==> '0' <= s[i] <= '9'
  }

  predicate Unsigned(s: string) {
    IsDigits(s) || exists i :: 0 < i < |s| && s[i] == '.' && IsDigits(s[..i]) && IsDigits(s[i + 1..])
  }

  predicate IsNumber(s: string) {
    Unsigned(s) || (|s| > 0 && s[0] == '-' && Unsigned(s[1..]))
  }

  /** The new literal, written as its predecessor was, or Err when the text does not read as that kind; `isDate` is the library's reading of a date. */
  function Build(value: string, kind: ValueKind, shape: Operand, isDate: string -> bool): Result<Literal> {
    match kind
    case AsNumber => if IsNumber(value) then Ok(Numeral(value)) else Err
    case AsDate =>
      if !isDate(if |value| <= 10 then value else value[..10]) then Err
      else if shape.Const? && shape.literal.DateCast? then Ok(DateCast(value)) else Ok(Quoted(value))
    case AsText => Ok(Quoted(value))
  }

  function BuildAll(values: seq<string>, kind: ValueKind, shape: Operand, isDate: string -> bool): Result<seq<Operand>> {
    if values == [] then Ok([])
    else
      var first, rest := Build(values[0], kind, shape, isDate), BuildAll(values[1..], kind, shape, isDate);
      if first.Err? || rest.Err? then Err else Ok([Const(first.value)] + rest.value)
  }

  function Replaced(a: Atom, kind: ValueKind, values: seq<string>, isDate: string -> bool): Result<Atom>
    requires Readable(a)
  {
    match a
    case Among(column, items) =>
      var built := BuildAll(values, kind, items[0], isDate);
      if built.Err? then Err else Ok(Among(column, built.value))
    case Between(column, low, high) =>
      if |values| != 2 then Err
      else
        var l, h := Build(values[0], kind, low, isDate), Build(values[1], kind, high, isDate);
        if l.Err? || h.Err? then Err else Ok(Between(column, Const(l.value), Const(h.value)))
    case Comparison(op, left, right) =>
      if |values| != 1 then Err
      else
        var built := Build(values[0], kind, if left.Column? then right else left, isDate);
        if built.Err? then Err
        else Ok(if left.Column? then Comparison(op, left, Const(built.value)) else Comparison(op, Const(built.value), right))
    case _ => Err
  }

  function PutAt(clauses: seq<Clause>, at: Position, a: Atom): seq<Clause>
    requires at.0 < |clauses|
  {
    clauses[at.0 := Put(clauses[at.0], at.1, Leaf(a))]
  }

  /** What an edit puts in place of the condition it names, as the query read it. */
  function NewAtom(clauses: seq<Clause>, edit: Edit, isDate: string -> bool): Result<Atom>
    requires edit.index < |Found(clauses)|
  {
    var at := Found(clauses)[edit.index];
    match edit
    case Remove(_) => if Removable(clauses[at.0], at.1) then Ok(Always) else Err
    case Values(_, values) =>
      var a := At(clauses[at.0], at.1).value.a;
      Replaced(a, Read(a).kind, values, isDate)
  }

  /** The edits in turn, each made where the original query had its condition. */
  function Edited(original: seq<Clause>, now: seq<Clause>, edits: seq<Edit>, isDate: string -> bool): Result<seq<Clause>>
    requires |now| == |original|
    decreases edits
  {
    if edits == [] then Ok(now)
    else if edits[0].index >= |Found(original)| then Err
    else
      var a := NewAtom(original, edits[0], isDate);
      if a.Err? then Err
      else Edited(original, PutAt(now, Found(original)[edits[0].index], a.value), edits[1..], isDate)
  }

  predicate DistinctIndexes(edits: seq<Edit>) {
    forall i, j :: 0 <= i < j < |edits| ==> edits[i].index != edits[j].index
  }

  method EditConditions(clauses: seq<Clause>, edits: seq<Edit>, isDate: string -> bool) returns (r: Result<seq<Clause>>)
    ensures r == if DistinctIndexes(edits) then Edited(clauses, clauses, edits, isDate) else Err
  {
    if !DistinctIndexes(edits) {
      return Err;
    }
    var found, now := Found(clauses), clauses;
    for n := 0 to |edits|
      invariant |now| == |clauses|
      invariant Edited(clauses, now, edits[n..], isDate) == Edited(clauses, clauses, edits, isDate)
    {
      assert edits[n..][1..] == edits[n + 1..];
      if edits[n].index >= |found| {
        return Err;
      }
      var a := NewAtom(clauses, edits[n], isDate);
      if a.Err? {
        return Err;
      }
      now := PutAt(now, found[edits[n].index], a.value);
    }
    r := Ok(now);
  }

  // Replacing a leaf by a leaf moves no other node.

  lemma {:induction false} PutAtLeaf(c: Clause, p: Path, q: Path, x: Clause)
    requires IsLeaf(c, p) && x.Leaf?
    ensures At(Put(c, p, x), q) == if q == p then Some(x)
              else if At(c, q).None? then None
              else if |q| <= |p| && q == p[..|q|] then Some(Put(At(c, q).value, p[|q|..], x)) else At(c, q)
    decreases p
  {
    if p != [] && q != [] {
      match c
      case Negated(y) => if !q[0] { PutAtLeaf(y, p[1..], q[1..], x); }
      case Grouped(y) => if !q[0] { PutAtLeaf(y, p[1..], q[1..], x); }
      case Both(l, r) => if p[0] == q[0] { PutAtLeaf(if p[0] then r else l, p[1..], q[1..], x); }
      case Either(l, r) => if p[0] == q[0] { PutAtLeaf(if p[0] then r else l, p[1..], q[1..], x); }
    }
  }

  lemma {:induction false} PutSwaps(c: Clause, p: Path, q: Path, x: Clause, y: Clause)
    requires IsLeaf(c, p) && IsLeaf(c, q) && p != q && x.Leaf? && y.Leaf?
    ensures Put(Put(c, p, x), q, y) == Put(Put(c, q, y), p, x)
    decreases p
  {
    if p != [] && q != [] && p[0] == q[0] {
      match c
      case Negated(z) => PutSwaps(z, p[1..], q[1..], x, y);
      case Grouped(z) => PutSwaps(z, p[1..], q[1..], x, y);
      case Both(l, r) => PutSwaps(if p[0] then r else l, p[1..], q[1..], x, y);
      case Either(l, r) => PutSwaps(if p[0] then r else l, p[1..], q[1..], x, y);
    }
  }

  lemma {:induction false} LevelKept(c: Clause, p: Path, x: Clause, n: nat)
    requires IsLeaf(c, p) && x.Leaf?
    ensures Level(Put(c, p, x), n) == Level(c, n) && Height(Put(c, p, x)) == Height(c)
    decreases p
  {
    if p != [] {
      var m := if n == 0 then 0 else n - 1;
      match c
      case Negated(y) => LevelKept(y, p[1..], x, m);
      case Grouped(y) => LevelKept(y, p[1..], x, m);
      case Both(l, r) => LevelKept(if p[0] then r else l, p[1..], x, m);
      case Either(l, r) => LevelKept(if p[0] then r else l, p[1..], x, m);
    }
  }

  lemma {:induction false} WalkKept(c: Clause, p: Path, x: Clause, depth: nat)
    requires IsLeaf(c, p) && x.Leaf?
    ensures Walk(Put(c, p, x), depth) == Walk(c, depth)
  {
    LevelKept(c, p, x, depth);
    if depth > 0 { WalkKept(c, p, x, depth - 1); }
  }

  lemma {:induction false} PositionsKept(clauses: seq<Clause>, at: Position, a: Atom, n: nat)
    requires n <= |clauses| && at.0 < |clauses| && IsLeaf(clauses[at.0], at.1)
    ensures Positions(PutAt(clauses, at, a), n) == Positions(clauses, n)
  {
    if n > 0 {
      PositionsKept(clauses, at, a, n - 1);
      if n - 1 == at.0 {
        LevelKept(clauses[at.0], at.1, Leaf(a), 0);
        WalkKept(clauses[at.0], at.1, Leaf(a), Height(clauses[at.0]));
      }
    }
  }

  // No node is walked twice.

  lemma {:induction false} LevelDepth(c: Clause, n: nat)
    ensures forall i :: 0 <= i < |Level(c, n)| ==> |Level(c, n)[i]| == n
    ensures forall i, j :: 0 <= i < j < |Level(c, n)| ==> Level(c, n)[i] != Level(c, n)[j]
    decreases n
  {
    if n > 0 {
      match c
      case Leaf(_) =>
      case Negated(x) => LevelDepth(x, n - 1); MapUnder(Level(x, n - 1), false);
      case Grouped(x) => LevelDepth(x, n - 1); MapUnder(Level(x, n - 1), false);
      case Both(l, r) =>
        LevelDepth(l, n - 1);
        LevelDepth(r, n - 1);
        MapUnder(Level(l, n - 1), false);
        MapUnder(Level(r, n - 1), true);
      case Either(l, r) =>
        LevelDepth(l, n - 1);
        LevelDepth(r, n - 1);
        MapUnder(Level(l, n - 1), false);
        MapUnder(Level(r, n - 1), true);
    }
  }

  predicate Apart<T(==)>(s: seq<T>) {
    forall i, j :: 0 <= i < j < |s| ==> s[i] != s[j]
  }

  lemma MapUnder(s: seq<Path>, side: bool)
    requires Apart(s)
    ensures Apart(Map(s, Under(side)))
    ensures forall i :: 0 <= i < |s| ==> Map(s, Under(side))[i] != [] && Map(s, Under(side))[i][0] == side
  {
    forall i, j | 0 <= i < j < |s| ensures Map(s, Under(side))[i] != Map(s, Under(side))[j] {
      assert Map(s, Under(side))[i][1..] == s[i] && Map(s, Under(side))[j][1..] == s[j];
    }
  }

  lemma {:induction false} WalkApart(c: Clause, depth: nat)
    ensures Apart(Walk(c, depth)) && forall i :: 0 <= i < |Walk(c, depth)| ==> |Walk(c, depth)[i]| <= depth
  {
    LevelDepth(c, depth);
    if depth > 0 { WalkApart(c, depth - 1); }
  }

  lemma {:induction false} PositionsApart(clauses: seq<Clause>, n: nat)
    requires n <= |clauses|
    ensures Apart(Positions(clauses, n)) && forall i :: 0 <= i < |Positions(clauses, n)| ==> Positions(clauses, n)[i].0 < n
  {
    if n > 0 {
      PositionsApart(clauses, n - 1);
      WalkApart(clauses[n - 1], Height(clauses[n - 1]));
    }
  }

  lemma {:induction false} FilterApart<T(!new)>(s: seq<T>, p: T -> bool)
    requires Apart(s)
    ensures Apart(Filter(s, p))
  {
    if s != [] {
      FilterApart(s[1..], p);
      FilterIn(s[1..], p);
    }
  }

  /** Two numbers name two nodes. */
  lemma FoundApart(clauses: seq<Clause>)
    ensures Apart(Found(clauses))
  {
    PositionsApart(clauses, |clauses|);
    FilterApart(Positions(clauses, |clauses|), Conditional(clauses));
  }

  // Edits to distinct conditions commute.

  lemma OneEdit(original: seq<Clause>, now: seq<Clause>, e: Edit, rest: seq<Edit>, isDate: string -> bool)
    requires |now| == |original|
    ensures Edited(original, now, [e] + rest, isDate) ==
      if e.index >= |Found(original)| || NewAtom(original, e, isDate).Err? then Err
      else Edited(original, PutAt(now, Found(original)[e.index], NewAtom(original, e, isDate).value), rest, isDate)
  {
    assert ([e] + rest)[1..] == rest;
  }

  lemma {:induction false} EditsCommute(clauses: seq<Clause>, e: Edit, f: Edit, isDate: string -> bool)
    requires e.index != f.index
    ensures Edited(clauses, clauses, [e, f], isDate) == Edited(clauses, clauses, [f, e], isDate)
  {
    assert [e, f] == [e] + [f] && [f, e] == [f] + [e] && [e] + [] == [e] && [f] + [] == [f];
    OneEdit(clauses, clauses, e, [f], isDate);
    OneEdit(clauses, clauses, f, [e], isDate);
    var found := Found(clauses);
    if e.index < |found| && f.index < |found| {
      var a, b := NewAtom(clauses, e, isDate), NewAtom(clauses, f, isDate);
      if a.Ok? { OneEdit(clauses, PutAt(clauses, found[e.index], a.value), f, [], isDate); }
      if b.Ok? { OneEdit(clauses, PutAt(clauses, found[f.index], b.value), e, [], isDate); }
      if a.Ok? && b.Ok? {
        FoundApart(clauses);
        PlacesSwap(clauses, found[e.index], found[f.index], a.value, b.value);
      }
    } else if e.index < |found| && NewAtom(clauses, e, isDate).Ok? {
      OneEdit(clauses, PutAt(clauses, found[e.index], NewAtom(clauses, e, isDate).value), f, [], isDate);
    } else if f.index < |found| && NewAtom(clauses, f, isDate).Ok? {
      OneEdit(clauses, PutAt(clauses, found[f.index], NewAtom(clauses, f, isDate).value), e, [], isDate);
    }
  }

  lemma PlacesSwap(clauses: seq<Clause>, p: Position, q: Position, a: Atom, b: Atom)
    requires p != q && IsCondition(clauses, p) && IsCondition(clauses, q)
    ensures PutAt(PutAt(clauses, p, a), q, b) == PutAt(PutAt(clauses, q, b), p, a)
  {
    if p.0 == q.0 { PutSwaps(clauses[p.0], p.1, q.1, Leaf(a), Leaf(b)); }
  }

  // Reading an edited query again.

  /** Every new value reads as the condition's kind: checkable on the values before the edit. */
  predicate ReadsAs(value: string, kind: ValueKind, shape: Operand) {
    match kind
    case AsNumber => true
    case AsText => !IsoDay(value)
    case AsDate => IsoDay(value) || (shape.Const? && shape.literal.DateCast?)
  }

  predicate KindKept(a: Atom, kind: ValueKind, values: seq<string>) {
    match a
    case Among(_, items) => items != [] && forall i :: 0 <= i < |values| ==> ReadsAs(values[i], kind, items[0])
    case Between(_, low, high) => |values| == 2 && ReadsAs(values[0], kind, low) && ReadsAs(values[1], kind, high)
    case Comparison(_, l, r) => |values| == 1 && ReadsAs(values[0], kind, if l.Column? then r else l)
    case _ => false
  }

  lemma {:induction false} BuiltAll(values: seq<string>, kind: ValueKind, shape: Operand, isDate: string -> bool)
    requires BuildAll(values, kind, shape, isDate).Ok?
    ensures var items := BuildAll(values, kind, shape, isDate).value;
      && |items| == |values| && AllConst(items) && Texts(items) == values
      && forall i :: 0 <= i < |items| ==> (KindOf(items[i].literal) == kind <==> ReadsAs(values[i], kind, shape))
  {
    if values != [] { BuiltAll(values[1..], kind, shape, isDate); }
  }

  /** The new atom reads as the old condition with the new values if and only if they all read as its kind. */
  lemma AtomReadsBack(a: Atom, values: seq<string>, isDate: string -> bool)
    requires Readable(a) && Replaced(a, Read(a).kind, values, isDate).Ok? && 0 < |values| <= MAX_VALUES
    ensures var b := Replaced(a, Read(a).kind, values, isDate).value;
      (Readable(b) && Read(b) == Read(a).(values := values)) <==> KindKept(a, Read(a).kind, values)
  {
    var kind := Read(a).kind;
    var b := Replaced(a, kind, values, isDate).value;
    match a
    case Among(column, items) =>
      BuiltAll(values, kind, items[0], isDate);
      var built := BuildAll(values, kind, items[0], isDate).value;
      assert Compared(b) == built;
      assert Readable(b) && KindOf(built[0].literal) == kind ==>
        forall i :: 0 <= i < |built| ==> KindOf(built[i].literal) == kind;
    case Between(_, low, high) =>
      assert Compared(b) == [b.low, b.high] && values == [values[0], values[1]];
      assert Readable(b) ==> KindOf(Compared(b)[1].literal) == KindOf(Compared(b)[0].literal);
    case Comparison(_, l, r) => assert values == [values[0]];
  }

  lemma {:induction false} LeafOnly(c: Clause, p: Path, q: Path)
    requires IsLeaf(c, p) && IsLeaf(c, q) && |q| <= |p| && q == p[..|q|]
    ensures q == p
    decreases p
  {
    if q != [] {
      match c
      case Negated(x) => LeafOnly(x, p[1..], q[1..]);
      case Grouped(x) => LeafOnly(x, p[1..], q[1..]);
      case Both(l, r) => LeafOnly(if p[0] then r else l, p[1..], q[1..]);
      case Either(l, r) => LeafOnly(if p[0] then r else l, p[1..], q[1..]);
    } else {
      assert c.Leaf?;
    }
  }

  lemma {:induction false} SpineKept(c: Clause, p: Path, x: Clause, q: Path)
    requires IsLeaf(c, p) && x.Leaf?
    ensures OnSpine(Put(c, p, x), q) == OnSpine(c, q)
    decreases p
  {
    if p != [] && q != [] && p[0] == q[0] {
      match c
      case Grouped(y) => SpineKept(y, p[1..], x, q[1..]);
      case Both(l, r) => SpineKept(if p[0] then r else l, p[1..], x, q[1..]);
      case _ =>
    }
  }

  /** Every other node keeps its atom, its NOT and its place. */
  lemma OthersKept(c: Clause, p: Path, x: Clause, q: Path)
    requires IsLeaf(c, p) && x.Leaf?
    ensures UnderNot(Put(c, p, x), q) == UnderNot(c, q) && Removable(Put(c, p, x), q) == Removable(c, q)
    ensures q != p ==> IsLeaf(Put(c, p, x), q) == IsLeaf(c, q) && (IsLeaf(c, q) ==> At(Put(c, p, x), q) == At(c, q))
  {
    NotKept(c, p, x, q);
    SpineKept(c, p, x, q);
    if q != [] { SpineKept(c, p, x, q[..|q| - 1]); }
    if q != p { LeafKept(c, p, x, q); }
  }

  lemma NotKept(c: Clause, p: Path, x: Clause, q: Path)
    requires IsLeaf(c, p) && x.Leaf?
    ensures UnderNot(Put(c, p, x), q) == UnderNot(c, q)
  {
    if q != [] { PutAtLeaf(c, p, q[..|q| - 1], x); }
  }

  lemma LeafKept(c: Clause, p: Path, x: Clause, q: Path)
    requires IsLeaf(c, p) && x.Leaf? && q != p
    ensures IsLeaf(Put(c, p, x), q) == IsLeaf(c, q) && (IsLeaf(c, q) ==> At(Put(c, p, x), q) == At(c, q))
  {
    PutAtLeaf(c, p, q, x);
    if IsLeaf(c, q) && |q| <= |p| && q == p[..|q|] { LeafOnly(c, p, q); }
  }

  lemma DescribedSame(clauses: seq<Clause>, at: Position, a: Atom, other: Position)
    requires IsCondition(clauses, at) && other != at && other.0 < |clauses|
    ensures IsCondition(PutAt(clauses, at, a), other) == IsCondition(clauses, other)
    ensures IsCondition(clauses, other) ==> Describe(PutAt(clauses, at, a), other) == Describe(clauses, other)
  {
    if other.0 == at.0 { OthersKept(clauses[at.0], at.1, Leaf(a), other.1); }
  }

  /** Reading the query again gives the same numbers and conditions, but for the edited one's values. */
  predicate SameBut(before: seq<Clause>, after: seq<Clause>, index: nat, values: seq<string>) {
    Found(after) == Found(before) && forall k :: 0 <= k < |Found(before)| ==>
      Describe(after, Found(after)[k]) ==
        if k == index then Describe(before, Found(before)[k]).(values := values) else Describe(before, Found(before)[k])
  }

  lemma FoundKept(clauses: seq<Clause>, at: Position, a: Atom)
    requires IsCondition(clauses, at) && Readable(a)
    ensures Found(PutAt(clauses, at, a)) == Found(clauses) && IsCondition(PutAt(clauses, at, a), at)
  {
    var after := PutAt(clauses, at, a);
    PositionsKept(clauses, at, a, |clauses|);
    PutAtLeaf(clauses[at.0], at.1, at.1, Leaf(a));
    PositionsApart(clauses, |clauses|);
    var all := Positions(clauses, |clauses|);
    forall other | other in all ensures Conditional(after)(other) == Conditional(clauses)(other) {
      if other != at { DescribedSame(clauses, at, a, other); }
    }
    FilterCong(all, Conditional(after), Conditional(clauses));
  }

  /** A value edit changes nothing but the edited condition's values exactly when they all read as its kind. */
  lemma ReadsBack(clauses: seq<Clause>, edit: Edit, isDate: string -> bool)
    requires edit.Values? && edit.index < |Found(clauses)| && 0 < |edit.values| <= MAX_VALUES
    requires NewAtom(clauses, edit, isDate).Ok?
    ensures var at := Found(clauses)[edit.index];
      var a := At(clauses[at.0], at.1).value.a;
      var after := PutAt(clauses, at, NewAtom(clauses, edit, isDate).value);
      SameBut(clauses, after, edit.index, edit.values) <==> KindKept(a, Read(a).kind, edit.values)
  {
    var at := Found(clauses)[edit.index];
    var a, b := At(clauses[at.0], at.1).value.a, NewAtom(clauses, edit, isDate).value;
    var after := PutAt(clauses, at, b);
    AtomReadsBack(a, edit.values, isDate);
    PutAtLeaf(clauses[at.0], at.1, at.1, Leaf(b));
    OthersKept(clauses[at.0], at.1, Leaf(b), at.1);
    if Readable(b) {
      FoundKept(clauses, at, b);
      FoundApart(clauses);
      forall k | 0 <= k < |Found(clauses)| && k != edit.index
        ensures Describe(after, Found(after)[k]) == Describe(clauses, Found(clauses)[k])
      {
        DescribedSame(clauses, at, b, Found(clauses)[k]);
      }
      assert Describe(after, at) == Describe(clauses, at).(values := edit.values) <==> Read(b) == Read(a).(values := edit.values);
    } else {
      assert Found(after) != Found(clauses) by {
        assert !IsCondition(after, at);
      }
    }
  }

  /** Values of two kinds make the condition vanish: the query no longer has it to edit. */
  lemma Vanishes(column: Operand, items: seq<Operand>, plain: string, day: string, isDate: string -> bool)
    requires Readable(Among(column, items)) && Read(Among(column, items)).kind == AsText
    requires !IsoDay(plain) && IsoDay(day)
    ensures Replaced(Among(column, items), AsText, [plain, day], isDate).Ok?
    ensures !Readable(Replaced(Among(column, items), AsText, [plain, day], isDate).value)
  {
    var built := BuildAll([plain, day], AsText, items[0], isDate);
    assert [plain, day][1..] == [day] && [day][1..] == [];
    assert BuildAll([], AsText, items[0], isDate) == Ok([]) && [Const(Quoted(day))] + [] == [Const(Quoted(day))];
    assert BuildAll([day], AsText, items[0], isDate) == Ok([Const(Quoted(day))]);
    assert [Const(Quoted(plain))] + [Const(Quoted(day))] == [Const(Quoted(plain)), Const(Quoted(day))];
    assert built == Ok([Const(Quoted(plain)), Const(Quoted(day))]);
    assert KindOf(built.value[1].literal) != KindOf(built.value[0].literal);
  }

  // What dropping a condition keeps.

  /** Any reading of the comparisons; the literal TRUE that replaces a dropped one is true. */
  function Truth(c: Clause, truth: Atom -> Value): Value {
    match c
    case Leaf(a) => if a.Always? then Bool(true) else truth(a)
    case Negated(x) => Not3(Truth(x, truth))
    case Grouped(x) => Truth(x, truth)
    case Both(l, r) => And3(Truth(l, truth), Truth(r, truth))
    case Either(l, r) => Or3(Truth(l, truth), Truth(r, truth))
  }

  /** The conditions a clause ANDs together. */
  function Conjuncts(c: Clause): seq<Path> {
    match c
    case Grouped(x) => Map(Conjuncts(x), Under(false))
    case Both(l, r) => Map(Conjuncts(l), Under(false)) + Map(Conjuncts(r), Under(true))
    case _ => [[]]
  }

  predicate ConjunctTrue(c: Clause, p: Path, truth: Atom -> Value) {
    At(c, p).Some? && IsTrue(Truth(At(c, p).value, truth))
  }

  predicate AllTrue(c: Clause, ps: seq<Path>, truth: Atom -> Value) {
    forall i :: 0 <= i < |ps| ==> ConjunctTrue(c, ps[i], truth)
  }

  lemma AllTrueConcat(c: Clause, ps: seq<Path>, qs: seq<Path>, truth: Atom -> Value)
    ensures AllTrue(c, ps + qs, truth) == (AllTrue(c, ps, truth) && AllTrue(c, qs, truth))
  {
    if AllTrue(c, ps + qs, truth) {
      assert forall i :: 0 <= i < |ps| ==> (ps + qs)[i] == ps[i];
      forall i | 0 <= i < |qs| ensures ConjunctTrue(c, qs[i], truth) {
        assert (ps + qs)[|ps| + i] == qs[i];
      }
    }
  }

  lemma BothConjuncts(l: Clause, r: Clause, truth: Atom -> Value)
    ensures AllTrue(Clause.Both(l, r), Conjuncts(Clause.Both(l, r)), truth)
            == (AllTrue(l, Conjuncts(l), truth) && AllTrue(r, Conjuncts(r), truth))
  {
    var c := Clause.Both(l, r);
    forall q: Path ensures At(c, [false] + q) == At(l, q) { }
    forall q: Path ensures At(c, [true] + q) == At(r, q) { }
    AllTrueConcat(c, Map(Conjuncts(l), Under(false)), Map(Conjuncts(r), Under(true)), truth);
  }

  /** A clause is true exactly when every conjunct is. */
  lemma {:induction false} SpineTrue(c: Clause, truth: Atom -> Value)
    ensures IsTrue(Truth(c, truth)) <==> AllTrue(c, Conjuncts(c), truth)
  {
    match c
    case Grouped(x) =>
      forall q: Path ensures At(c, [false] + q) == At(x, q) { }
      SpineTrue(x, truth);
    case Both(l, r) =>
      BothConjuncts(l, r, truth);
      SpineTrue(l, truth);
      SpineTrue(r, truth);
    case _ => assert Conjuncts(c)[0] == [];
  }

  /** Dropping a conjunct leaves every other one as it is. */
  lemma {:induction false} ConjunctsKept(c: Clause, p: Path, i: nat)
    requires OnSpine(c, p) && IsLeaf(c, p) && i < |Conjuncts(c)|
    ensures Conjuncts(Put(c, p, Leaf(Always))) == Conjuncts(c)
    ensures Conjuncts(c)[i] != p ==> At(Put(c, p, Leaf(Always)), Conjuncts(c)[i]) == At(c, Conjuncts(c)[i])
    decreases c
  {
    if p != [] {
      var c' := Put(c, p, Leaf(Always));
      match c
      case Grouped(x) =>
        ConjunctsKept(x, p[1..], i);
        assert p == [false] + p[1..];
      case Both(l, r) =>
        var n := |Conjuncts(l)|;
        var side, k := i >= n, if i < n then i else i - n;
        var x := if side then r else l;
        assert p == [p[0]] + p[1..] && Conjuncts(c)[i] == [side] + Conjuncts(x)[k];
        SomeConjunct(l);
        SomeConjunct(r);
        ConjunctsKept(if p[0] then r else l, p[1..], if side == p[0] then k else 0);
    }
  }

  lemma {:induction false} SomeConjunct(c: Clause)
    ensures |Conjuncts(c)| > 0
  {
    match c
    case Grouped(x) => SomeConjunct(x);
    case Both(l, r) => SomeConjunct(l);
    case _ =>
  }

  /** Dropping a removable condition not under a NOT keeps exactly the rows every other conjunct keeps. */
  lemma DropKeepsRest(c: Clause, p: Path, truth: Atom -> Value)
    requires IsLeaf(c, p) && Removable(c, p) && !UnderNot(c, p)
    ensures IsTrue(Truth(Put(c, p, Leaf(Always)), truth)) <==>
      forall i :: 0 <= i < |Conjuncts(c)| && Conjuncts(c)[i] != p ==> ConjunctTrue(c, Conjuncts(c)[i], truth)
  {
    var c' := Put(c, p, Leaf(Always));
    SomeConjunct(c);
    SpineTrue(c', truth);
    ConjunctsKept(c, p, 0);
    PutAtLeaf(c, p, p, Leaf(Always));
    forall i | 0 <= i < |Conjuncts(c)|
      ensures ConjunctTrue(c', Conjuncts(c')[i], truth) == (Conjuncts(c)[i] == p || ConjunctTrue(c, Conjuncts(c)[i], truth))
    {
      ConjunctsKept(c, p, i);
    }
  }

  /** Dropping one under a NOT, which is called removable too, keeps no rows: NOT TRUE is false. */
  lemma {:induction false} DropUnderNot(c: Clause, p: Path, truth: Atom -> Value)
    requires IsLeaf(c, p) && Removable(c, p) && UnderNot(c, p)
    ensures !IsTrue(Truth(Put(c, p, Leaf(Always)), truth))
    decreases c
  {
    var above := p[..|p| - 1];
    match c
    case Negated(x) => assert above == [] || !OnSpine(c, above);
    case Grouped(x) => UnderChild(c, x, p); DropUnderNot(x, p[1..], truth);
    case Both(l, r) => UnderChild(c, if p[0] then r else l, p); DropUnderNot(if p[0] then r else l, p[1..], truth);
    case _ =>
  }

  lemma UnderChild(c: Clause, x: Clause, p: Path)
    requires IsLeaf(c, p) && Removable(c, p) && UnderNot(c, p) && (c.Grouped? || c.Both?)
    requires p != [] && x == (if c.Grouped? then c.c else if p[0] then c.r else c.l) && (c.Grouped? ==> !p[0])
    ensures IsLeaf(x, p[1..]) && Removable(x, p[1..]) && UnderNot(x, p[1..])
  {
    assert |p| > 1;
    assert p[..|p| - 1][1..] == p[1..][..|p| - 2];
  }
}
