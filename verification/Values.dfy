/**
 The values of a database's columns and what is computed from them: conditions use the truth
 tables of section 8.12 of ISO/IEC 9075:1992, set functions its section 6.5.
 */
module Values {
  import opened Seqs

  datatype Value = Null | Bool(b: bool) | Num(n: int) | Text(s: string)

  type Row = map<string, Value>

  /** A column a row does not have reads as NULL. */
  function Get(row: Row, name: string): Value {
    if name in row then row[name] else Null
  }

  predicate IsTrue(v: Value) { v == Bool(true) }

  function And3(a: Value, b: Value): Value {
    if a == Bool(false) || b == Bool(false) then Bool(false)
    else if a == Bool(true) && b == Bool(true) then Bool(true)
    else Null
  }

  function Or3(a: Value, b: Value): Value {
    if a == Bool(true) || b == Bool(true) then Bool(true)
    else if a == Bool(false) && b == Bool(false) then Bool(false)
    else Null
  }

  function Not3(a: Value): Value {
    if a.Bool? then Bool(!a.b) else Null
  }

  datatype Comparison = Eq | Ne | Lt | Le | Gt | Ge

  function Compare(op: Comparison, a: Value, b: Value): Value {
    if a == Null || b == Null then Null
    else match op
      case Eq => Bool(a == b)
      case Ne => Bool(a != b)
      case Lt => Bool(Below(a, b))
      case Le => Bool(a == b || Below(a, b))
      case Gt => Bool(Below(b, a))
      case Ge => Bool(a == b || Below(b, a))
  }

  predicate Below(a: Value, b: Value) {
    match (a, b)
    case (Num(m), Num(n)) => m < n
    case (Text(s), Text(t)) => TextBelow(s, t)
    case _ => false
  }

  predicate TextBelow(s: string, t: string) {
    if t == [] then false
    else if s == [] then true
    else s[0] < t[0] || (s[0] == t[0] && TextBelow(s[1..], t[1..]))
  }

  /** `v IN (items)`: true on a match, unknown when only a NULL could have matched. */
  function Member(v: Value, items: seq<Value>): Value {
    if items == [] then Bool(false)
    else Or3(Compare(Eq, v, items[0]), Member(v, items[1..]))
  }

  datatype CastKind = ToDouble | ToNumeric | ToText

  /** Exact numbers: only a conversion to text changes a value. */
  function CastValue(kind: CastKind, v: Value): Value {
    if kind.ToText? && v.Num? then Text(Digits(v.n)) else v
  }

  function Digits(n: int): string {
    if n < 0 then "-" + NatDigits(-n) else NatDigits(n)
  }

  function NatDigits(n: nat): (s: string)
    ensures |s| > 0
  {
    var last := ['0', '1', '2', '3', '4', '5', '6', '7', '8', '9'][n % 10];
    if n < 10 then [last] else NatDigits(n / 10) + [last]
  }

  // Set functions: NULLs are eliminated first, and SUM and MAX of nothing are NULL.

  datatype Aggregate = Sum | Count | CountStar | Max

  function NumOf(v: Value): int { if v.Num? then v.n else 0 }

  function IsNum(v: Value): int { if v.Num? then 1 else 0 }

  function NotNull(v: Value): int { if v.Null? then 0 else 1 }

  function SumOf(count: int, total: int): Value {
    if count == 0 then Null else Num(total)
  }

  function Largest(vs: seq<Value>): Value {
    if vs == [] then Null
    else
      var rest := Largest(vs[1..]);
      if vs[0].Null? then rest else if rest.Null? || Below(rest, vs[0]) then vs[0] else rest
  }

  function Aggregated(f: Aggregate, vs: seq<Value>): Value {
    match f
    case Sum => SumOf(Total(vs, IsNum), Total(vs, NumOf))
    case Count => Num(Total(vs, NotNull))
    case CountStar => Num(|vs|)
    case Max => Largest(vs)
  }
}
