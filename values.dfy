/**
 * The Python values that cross the task's loosely typed interfaces (offer tuples,
 * configuration dictionaries, action metadata, task factors), and the built-in
 * conversions the task applies to them: truthiness, float(), int(), list(), str(),
 * str.strip() and str.lower().
 */
module Values {
  import opened Wrappers

  /**
   * A Python value. PyList stands for both lists and tuples; PyObject for any other
   * object, taken to be non-iterable and always truthy (dicts, sets and other iterables
   * are not among these values).
   */
  datatype Value =
    | PyNone
    | PyBool(b: bool)
    | PyInt(i: int)
    | PyFloat(x: real)
    | PyStr(s: string)
    | PyList(items: seq<Value>)
    | PyObject

  /** Python truthiness, as used by `a or b` and bool(). */
  predicate Truthy(v: Value)
  {
    match v
    case PyNone => false
    case PyBool(b) => b
    case PyInt(i) => i != 0
    case PyFloat(x) => x != 0.0
    case PyStr(s) => s != ""
    case PyList(items) => items != []
    case PyObject => true
  }

  /** int() of a float: truncation toward zero. */
  function Trunc(x: real): (r: int)
    ensures 0.0 <= x ==> 0 <= r && r as real <= x < r as real + 1.0
    ensures x < 0.0 ==> r <= 0 && r as real - 1.0 < x <= r as real
  {
    if x >= 0.0 then x.Floor else -((-x).Floor)
  }

  /** float(v); None where Python raises (text is not parsed by this model). */
  function AsFloat(v: Value): Option<real>
  {
    match v
    case PyBool(b) => Some(if b then 1.0 else 0.0)
    case PyInt(i) => Some(i as real)
    case PyFloat(x) => Some(x)
    case _ => None
  }

  /** int(v); None where Python raises (text is not parsed by this model). */
  function AsInt(v: Value): Option<int>
  {
    match v
    case PyBool(b) => Some(if b then 1 else 0)
    case PyInt(i) => Some(i)
    case PyFloat(x) => Some(Trunc(x))
    case _ => None
  }

  /** list(v); None where Python raises a TypeError. A string yields its characters. */
  function AsList(v: Value): Option<seq<Value>>
  {
    match v
    case PyList(items) => Some(items)
    case PyStr(s) => Some(seq(|s|, i requires 0 <= i < |s| => PyStr([s[i]])))
    case _ => None
  }

  /** Decimal digits of a natural number, most significant first, with no leading zero. */
  function NatText(n: nat): (r: string)
    ensures r != []
    ensures forall i :: 0 <= i < |r| ==> '0' <= r[i] <= '9'
    ensures r[0] == '0' <==> n == 0
    decreases n
  {
    var d := ['0' + (n % 10) as char];
    if n < 10 then d else NatText(n / 10) + d
  }

  /** The number a string of decimal digits denotes. */
  function DecimalValue(s: string): nat
  {
    if s == [] then 0
    else
      var c := s[|s| - 1];
      DecimalValue(s[..|s| - 1]) * 10 + (if '0' <= c <= '9' then (c - '0') as nat else 0)
  }

  /** Reading NatText's digits back gives the number. */
  lemma {:induction false} NatTextValue(n: nat)
    ensures DecimalValue(NatText(n)) == n
    decreases n
  {
    var d := ['0' + (n % 10) as char];
    if n >= 10 {
      NatTextValue(n / 10);
      var t := NatText(n / 10) + d;
      assert t[..|t| - 1] == NatText(n / 10);
    }
  }

  /** str(v). Floats and containers get a placeholder, not Python's repr. */
  function Str(v: Value): string
  {
    match v
    case PyNone => "None"
    case PyBool(b) => if b then "True" else "False"
    case PyInt(i) => if i < 0 then "-" + NatText(-i) else NatText(i)
    case PyFloat(_) => "<float>"
    case PyStr(s) => s
    case PyList(_) => "<list>"
    case PyObject => "<object>"
  }

  /** The characters str.isspace() accepts, in the ASCII range. */
  predicate IsSpace(c: char)
  {
    c == ' ' || '\t' <= c <= '\r' || '\U{1c}' <= c <= '\U{1f}'
  }

  function StripLeft(s: string): (r: string)
    ensures |r| <= |s|
    ensures r == [] || !IsSpace(r[0])
  {
    if s != [] && IsSpace(s[0]) then StripLeft(s[1..]) else s
  }

  function StripRight(s: string): (r: string)
    ensures |r| <= |s|
    ensures r == [] || !IsSpace(r[|r| - 1])
  {
    if s != [] && IsSpace(s[|s| - 1]) then StripRight(s[..|s| - 1]) else s
  }

  /** StripLeft keeps a suffix and drops only white space. */
  lemma {:induction false} StripLeftDropsSpace(s: string)
    ensures var r := StripLeft(s);
      r == s[|s| - |r|..] && forall i :: 0 <= i < |s| - |r| ==> IsSpace(s[i])
  {
    if s != [] && IsSpace(s[0]) {
      StripLeftDropsSpace(s[1..]);
    }
  }

  /** StripRight keeps a prefix and drops only white space. */
  lemma {:induction false} StripRightDropsSpace(s: string)
    ensures var r := StripRight(s);
      r == s[..|r|] && forall i :: |r| <= i < |s| ==> IsSpace(s[i])
  {
    if s != [] && IsSpace(s[|s| - 1]) {
      StripRightDropsSpace(s[..|s| - 1]);
    }
  }

  /** str.strip(): drop leading and trailing white space. */
  function Strip(s: string): (r: string)
    ensures |r| <= |s|
    ensures r == [] || (!IsSpace(r[0]) && !IsSpace(r[|r| - 1]))
  {
    var left := StripLeft(s);
    StripRightDropsSpace(left);
    StripRight(left)
  }

  /**
   * Strip keeps a contiguous middle of its input and drops only white space around it:
   * the result starts at offset a, everything before a and after the result is white space.
   */
  lemma {:induction false} StripKeepsMiddle(s: string)
    ensures var r := Strip(s);
      var a := |s| - |StripLeft(s)|;
      && a + |r| <= |s|
      && r == s[a..a + |r|]
      && (forall i :: 0 <= i < a ==> IsSpace(s[i]))
      && (forall i :: a + |r| <= i < |s| ==> IsSpace(s[i]))
  {
    var left := StripLeft(s);
    StripLeftDropsSpace(s);
    var r := StripRight(left);
    StripRightDropsSpace(left);
    assert Strip(s) == r;
    SuffixPrefix(s, |s| - |left|, left, r);
  }

  /** A prefix r of the suffix t = s[a..] sits at offset a of s, and t's tail past r is s's tail. */
  lemma {:induction false} SuffixPrefix(s: string, a: nat, t: string, r: string)
    requires a <= |s| && t == s[a..]
    requires |r| <= |t| && r == t[..|r|]
    requires forall i :: |r| <= i < |t| ==> IsSpace(t[i])
    ensures r == s[a..a + |r|]
    ensures forall i :: a + |r| <= i < |s| ==> IsSpace(s[i])
  {
    forall i | a + |r| <= i < |s|
      ensures IsSpace(s[i])
    {
      assert s[i] == t[i - a];
    }
  }

  function LowerChar(c: char): char
  {
    if 'A' <= c <= 'Z' then c - 'A' + 'a' else c
  }

  /** str.lower(), for the ASCII letters. */
  function Lower(s: string): (r: string)
    ensures |r| == |s|
    ensures forall i :: 0 <= i < |s| ==> r[i] == LowerChar(s[i])
    ensures forall i :: 0 <= i < |r| ==> !('A' <= r[i] <= 'Z')
  {
    seq(|s|, i requires 0 <= i < |s| => LowerChar(s[i]))
  }

  function Clamp01(x: real): (r: real)
    ensures 0.0 <= r <= 1.0
    ensures 0.0 <= x <= 1.0 ==> r == x
    ensures x < 0.0 ==> r == 0.0
    ensures 1.0 < x ==> r == 1.0
  {
    if x < 0.0 then 0.0 else if x > 1.0 then 1.0 else x
  }

  function Max(a: real, b: real): (r: real)
    ensures r >= a && r >= b && (r == a || r == b)
  {
    if a >= b then a else b
  }

  function Min(a: real, b: real): (r: real)
    ensures r <= a && r <= b && (r == a || r == b)
  {
    if a <= b then a else b
  }
}
