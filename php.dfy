/**
 * The handful of PHP built-ins the delivery-date engine leans on, stated over
 * an explicit model of the scalar values that WordPress options and post meta
 * hold: `intval`, `absint`, `is_numeric`, `isset`, `??`, `empty`, `trim` and
 * the byte-wise comparison PHP applies to two non-numeric strings.
 */
module Php {

  datatype Option<+T> = None | Some(value: T) {
    function GetOr(default: T): T {
      match this
      case Some(v) => v
      case None => default
    }
  }

  /** The sentinel the source's min-folds start from. */
  const PHP_INT_MAX: int := 0x7FFF_FFFF_FFFF_FFFF

  /**
   * A scalar read from an option array or from post meta:
   *  - Absent: the key is not set, or holds null;
   *  - Blank: the empty string '';
   *  - Numeric(n): a number or numeric string whose intval is n;
   *  - Text(lead): any other string; lead is what intval reads from its
   *    leading digits (0 when there are none).
   */
  datatype Value = Absent | Blank | Numeric(n: int) | Text(lead: int)

  /** get_post_meta($id, $key, true) and WC_Product::get_meta never yield null: a missing key reads as ''. */
  type MetaValue = v: Value | !v.Absent? witness Blank

  /** isset($a[$k]) */
  predicate IsSet(v: Value) {
    !v.Absent?
  }

  /** is_numeric($v) */
  predicate IsNumeric(v: Value) {
    v.Numeric?
  }

  /** intval($v), also (int) $v */
  function IntVal(v: Value): (r: int)
    ensures v.Numeric? ==> r == v.n
    ensures v.Absent? || v.Blank? ==> r == 0
  {
    match v
    case Absent => 0
    case Blank => 0
    case Numeric(n) => n
    case Text(lead) => lead
  }

  function Abs(x: int): nat {
    if x < 0 then -x else x
  }

  /** WordPress absint($v) = abs((int) $v) */
  function AbsInt(v: Value): nat {
    Abs(IntVal(v))
  }

  /** absint($v ?? $default): a null or missing entry falls back to the default. */
  function AbsIntOr(v: Value, default: nat): (r: nat)
    ensures v.Absent? ==> r == default
    ensures v.Numeric? ==> r == Abs(v.n)
  {
    if v.Absent? then default else AbsInt(v)
  }

  /** $a[$k] on a PHP array of scalars, with a missing key reading as null. */
  function Get(a: map<string, Value>, key: string): Value {
    if key in a then a[key] else Absent
  }

  /** The truth value PHP gives a string: '' and '0' are false. */
  predicate Truthy(s: string) {
    s != "" && s != "0"
  }

  /** Characters trim() strips by default: space, tab, LF, CR, NUL and vertical tab. */
  predicate IsTrimChar(c: char) {
    c == ' ' || c == '\t' || c == '\n' || c == '\r' || c == 0 as char || c == 11 as char
  }

  function TrimLeft(s: string): (r: string)
    ensures |r| <= |s| && r == s[|s| - |r|..]
    ensures r == [] || !IsTrimChar(r[0])
    ensures forall i :: 0 <= i < |s| - |r| ==> IsTrimChar(s[i])
  {
    if s != [] && IsTrimChar(s[0]) then TrimLeft(s[1..]) else s
  }

  function TrimRight(s: string): (r: string)
    ensures |r| <= |s| && r == s[..|r|]
    ensures r == [] || !IsTrimChar(r[|r| - 1])
    ensures forall i :: |r| <= i < |s| ==> IsTrimChar(s[i])
  {
    if s != [] && IsTrimChar(s[|s| - 1]) then TrimRight(s[..|s| - 1]) else s
  }

  /**
   * trim($s): the result is a slice of the input whose ends are not
   * whitespace, and everything cut from either side is whitespace.
   */
  function Trim(s: string): (r: string)
    ensures r == [] || (!IsTrimChar(r[0]) && !IsTrimChar(r[|r| - 1]))
    ensures exists i, j :: (&& 0 <= i <= j <= |s| && r == s[i..j]
                            && (forall k :: 0 <= k < i ==> IsTrimChar(s[k]))
                            && (forall k :: j <= k < |s| ==> IsTrimChar(s[k])))
  {
    var l := TrimLeft(s);
    var r := TrimRight(l);
    var i := |s| - |l|;
    assert r == s[i..i + |r|];
    assert forall k :: i + |r| <= k < |s| ==> s[k] == l[k - i];
    r
  }

  /**
   * $a < $b for two strings of which at least one is not numeric: the bytes
   * are compared in order, and a proper prefix is the smaller string.
   */
  predicate StrLess(a: string, b: string) {
    if a == [] then b != []
    else if b == [] then false
    else if a[0] != b[0] then a[0] < b[0]
    else StrLess(a[1..], b[1..])
  }

  /**
   * The byte-wise order is a strict total order: never both ways, and one
   * way or the other for two different strings.
   */
  lemma {:induction false} StrLessTrichotomy(a: string, b: string)
    ensures !(StrLess(a, b) && StrLess(b, a))
    ensures a != b ==> StrLess(a, b) || StrLess(b, a)
    decreases |a|
  {
    if a != [] && b != [] && a[0] == b[0] {
      StrLessTrichotomy(a[1..], b[1..]);
      assert a == a[..1] + a[1..] && b == b[..1] + b[1..];
      assert a[..1] == b[..1];
    }
  }

  /** The source's `$a > $b` on strings. */
  predicate StrGreater(a: string, b: string) {
    StrLess(b, a)
  }
}
