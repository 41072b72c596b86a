/**
 * Request fields as the schema validators see them: a JSON value, or nothing
 * when the key is left out, and the per-type checks the schemas combine.
 */
module JsonFields {
  import opened Wrappers

  datatype Json = JNull | JBool(b: bool) | JNum(n: real) | JStr(s: string)

  /** A key of a request body or query; `None` when the key is left out. */
  type Field = Option<Json>

  predicate IsInteger(x: real)
  {
    x.Floor as real == x
  }

  /** A string key: `""` and `null` only where the schema allows them, and at most `maxLen` characters. */
  predicate StringOk(f: Field, allowEmpty: bool, allowNull: bool, maxLen: Option<nat>)
  {
    match f
    case None => true
    case Some(JStr(s)) => (s != "" || allowEmpty) && (maxLen.None? || |s| <= maxLen.value)
    case Some(JNull) => allowNull
    case Some(_) => false
  }

  /** A number key, optionally an integer, within the given bounds. */
  predicate NumberOk(f: Field, integer: bool, lo: Option<int>, hi: Option<int>)
  {
    match f
    case None => true
    case Some(JNum(n)) =>
      && (!integer || IsInteger(n))
      && (lo.None? || n >= lo.value as real)
      && (hi.None? || n <= hi.value as real)
    case Some(_) => false
  }

  predicate BoolOk(f: Field)
  {
    f.None? || f.value.JBool?
  }

  /** A string key restricted to a list of values. */
  predicate OneOfOk(f: Field, options: seq<string>)
  {
    f.None? || (f.value.JStr? && f.value.s in options)
  }

  /** The text of a string key, `None` when it is left out or not a string. */
  function TextOf(f: Field): Option<string>
  {
    if f.Some? && f.value.JStr? then Some(f.value.s) else None
  }

  function TextOr(f: Field, default: string): string
  {
    if f.Some? && f.value.JStr? then f.value.s else default
  }

  /** The integer of a number key; callers only use it once the key is known to be an integer. */
  function IntOr(f: Field, default: int): int
  {
    if f.Some? && f.value.JNum? then f.value.n.Floor else default
  }

  function BoolOf(f: Field): Option<bool>
  {
    if f.Some? && f.value.JBool? then Some(f.value.b) else None
  }
}
