/** JSON values, options and string order: the ground types every service shares. */
module Values {

  datatype Option<+T> = None | Some(value: T)

  /** A JSON value. Integers and floats stay apart, as they do for equality in the
      JSON library; floats are exact reals. */
  datatype Value =
    | Null
    | Bool(b: bool)
    | Int(i: int)
    | Flt(r: real)
    | Str(s: string)
    | Arr(items: seq<Value>)
    | Obj(fields: map<string, Value>)

  type Fields = map<string, Value>

  datatype CompareOp = Eq | Ne | In | Gt | Lt | Gte | Lte | Contains

  datatype Ordering = Less | Equal | Greater

  function Lookup(data: Fields, key: string): Option<Value> {
    if key in data then Some(data[key]) else None
  }

  /** The number a value carries, if it is a number. */
  function AsReal(v: Value): Option<real> {
    match v
    case Int(i) => Some(i as real)
    case Flt(r) => Some(r)
    case _ => None
  }

  predicate HasPrefix(s: string, prefix: string) {
    |prefix| <= |s| && s[..|prefix|] == prefix
  }

  predicate IsSubstring(sub: string, s: string) {
    HasPrefix(s, sub) || (s != [] && IsSubstring(sub, s[1..]))
  }

  /** The one comparison behind record filters and access conditions. */
  predicate Compare(lhs: Value, op: CompareOp, rhs: Value) {
    match op
    case Eq => lhs == rhs
    case Ne => lhs != rhs
    case In => rhs.Arr? && lhs in rhs.items
    case Contains =>
      if lhs.Str? && rhs.Str? then IsSubstring(rhs.s, lhs.s)
      else lhs.Arr? && rhs in lhs.items
    case _ =>
      match (AsReal(lhs), AsReal(rhs))
      case (Some(a), Some(b)) =>
        (match op
         case Gt => a > b
         case Lt => a < b
         case Gte => a >= b
         case _ => a <= b)
      case _ => false
  }

  /** Code-point order on strings. */
  predicate StrLess(a: string, b: string) {
    b != [] && (a == [] || a[0] < b[0] || (a[0] == b[0] && StrLess(a[1..], b[1..])))
  }

  function CompareStrings(a: string, b: string): Ordering {
    if StrLess(a, b) then Less else if StrLess(b, a) then Greater else Equal
  }

  lemma StrLessIrreflexive(a: string)
    ensures !StrLess(a, a)
  {
  }

  lemma {:induction false} StrLessTransitive(a: string, b: string, c: string)
    requires StrLess(a, b) && StrLess(b, c)
    ensures StrLess(a, c)
  {
    if a != [] && a[0] == b[0] && b[0] == c[0] {
      StrLessTransitive(a[1..], b[1..], c[1..]);
    }
  }

  lemma {:induction false} StrLessTotal(a: string, b: string)
    ensures StrLess(a, b) || StrLess(b, a) || a == b
  {
    if a != [] && b != [] && a[0] == b[0] {
      StrLessTotal(a[1..], b[1..]);
      assert a == [a[0]] + a[1..] && b == [b[0]] + b[1..];
    }
  }

  lemma StrLessAsymmetric(a: string, b: string)
    requires StrLess(a, b)
    ensures !StrLess(b, a)
  {
  }
}
