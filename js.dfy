/** The JavaScript values that reach the handlers in request bodies and query
    strings, with the coercions the handlers apply to them: truthiness, the
    `x || d` default, SQL `COALESCE(?, column)`, the `!== undefined` merge and
    the numeric comparison SQL makes between a parameter and an integer key. */
module Js {
  import opened Wrappers
  import opened Text

  /** Numbers are modelled as integers (amounts in the smallest unit); arrays are
      the lists a JSON body can carry. */
  datatype JsVal = Undefined | Null | Bool(b: bool) | Num(n: int) | Str(s: string) | Arr(items: seq<JsVal>)

  /** JavaScript truthiness: `undefined`, `null`, `false`, `0` and `""` are falsy. */
  predicate Truthy(v: JsVal) {
    match v
    case Undefined => false
    case Null => false
    case Bool(b) => b
    case Num(n) => n != 0
    case Str(s) => s != ""
    case Arr(_) => true
  }

  /** `v || d`. */
  function Or(v: JsVal, d: JsVal): (r: JsVal)
    ensures Truthy(v) ==> r == v
    ensures !Truthy(v) ==> r == d
  {
    if Truthy(v) then v else d
  }

  /** A bound parameter that SQL sees as NULL. */
  predicate IsNullish(v: JsVal) { v.Undefined? || v.Null? }

  /** `COALESCE(?, column)`: the parameter unless it is NULL, then the stored value. */
  function Coalesce(v: JsVal, stored: JsVal): (r: JsVal)
    ensures IsNullish(v) ==> r == stored
    ensures !IsNullish(v) ==> r == v
  {
    if IsNullish(v) then stored else v
  }

  /** `v !== undefined ? v : stored`: unlike COALESCE, an explicit `null` replaces the value. */
  function IfDefined(v: JsVal, stored: JsVal): (r: JsVal)
    ensures v.Undefined? ==> r == stored
    ensures !v.Undefined? ==> r == v
  {
    if v.Undefined? then stored else v
  }

  /** Undefined bind parameters are written as NULL. */
  function AsColumn(v: JsVal): (r: JsVal)
    ensures !r.Undefined?
    ensures !v.Undefined? ==> r == v
  {
    if v.Undefined? then Null else v
  }

  function DecimalValue(s: string): (n: nat)
    requires AllDigits(s)
    ensures s == [] ==> n == 0
  {
    if s == [] then 0 else 10 * DecimalValue(s[..|s| - 1]) + (s[|s| - 1] as int - '0' as int)
  }

  /** `String(n)` for a non-negative integer: its decimal digits, no leading zero. */
  function DecimalString(n: nat): (s: string)
    ensures AllDigits(s) && s != []
    ensures |s| > 1 ==> s[0] != '0'
  {
    if n < 10 then [('0' as int + n) as char]
    else DecimalString(n / 10) + [('0' as int + n % 10) as char]
  }

  /** Reading back the digits gives the number. */
  lemma {:induction false} DecimalStringValue(n: nat)
    ensures DecimalValue(DecimalString(n)) == n
  {
    if n >= 10 {
      DecimalStringValue(n / 10);
      var s := DecimalString(n);
      assert s[..|s| - 1] == DecimalString(n / 10);
    }
  }

  /** `10` to the power `k`. */
  function Pow10(k: nat): (p: nat)
    ensures p >= 1
  {
    if k == 0 then 1 else 10 * Pow10(k - 1)
  }

  /** A number written with at most `k` digits is below `10^k`. */
  lemma {:induction false} ShortDecimalIsSmall(n: nat, k: nat)
    requires |DecimalString(n)| <= k
    ensures n < Pow10(k)
  {
    if n >= 10 {
      ShortDecimalIsSmall(n / 10, k - 1);
    }
  }

  /** A number of at least `10^k` is written with more than `k` digits. */
  lemma {:induction false} LargeDecimalIsLong(n: nat, k: nat)
    ensures n >= Pow10(k) ==> |DecimalString(n)| > k
  {
    if n >= Pow10(k) && |DecimalString(n)| <= k {
      ShortDecimalIsSmall(n, k);
    }
  }

  lemma {:induction false} MulStrictlyMonotone(m: int, x: int, y: int)
    requires m > 0 && x < y
    ensures m * x + m <= m * y
    decreases y - x
  {
    if x + 1 < y {
      MulStrictlyMonotone(m, x + 1, y);
    }
    assert m * (x + 1) == m * x + m;
  }

  /** A remainder is the only `b` in `[0, m)` with `n == m * a + b`. */
  lemma ModUnique(n: int, m: int, a: int, b: int)
    requires m > 0 && n == m * a + b && 0 <= b < m
    ensures n % m == b
  {
    var q := n / m;
    assert n == m * q + n % m;
    if a > q {
      MulStrictlyMonotone(m, q, a);
    } else if a < q {
      MulStrictlyMonotone(m, a, q);
    }
  }

  /** Splitting off the last decimal digit before taking the remainder by `10 * p`. */
  lemma ModByTenTimes(n: nat, p: nat)
    requires p >= 1
    ensures n % (10 * p) == 10 * ((n / 10) % p) + n % 10
  {
    var q, r := n / 10, n % 10;
    var a, b := q / p, q % p;
    assert q == p * a + b;
    assert 10 * (p * a) == (10 * p) * a;
    assert n == (10 * p) * a + (10 * b + r);
    ModUnique(n, 10 * p, a, 10 * b + r);
  }

  /** Past the last digit, the last `k` digits of `String(n)` are the last
      `k - 1` digits of `String(n / 10)` followed by the digit of `n % 10`. */
  lemma SuffixSplit(n: nat, k: nat)
    requires 0 < k < |DecimalString(n)|
    ensures n >= 10
    ensures SliceFromEnd(DecimalString(n), k) ==
            SliceFromEnd(DecimalString(n / 10), k - 1) + [('0' as int + n % 10) as char]
  {
    var s, t, d := DecimalString(n), DecimalString(n / 10), [('0' as int + n % 10) as char];
    assert s == t + d;
    assert SliceFromEnd(s, k) == s[|s| - k..];
    assert SliceFromEnd(t, k - 1) == t[|t| - (k - 1)..];
    assert s[|s| - k..] == t[|t| - (k - 1)..] + d;
  }

  /** The last `k` digits of `String(n)` read back as `n % 10^k`. */
  lemma {:induction false} DecimalSuffixValue(n: nat, k: nat)
    ensures DecimalValue(SliceFromEnd(DecimalString(n), k)) == n % Pow10(k)
  {
    var s := DecimalString(n);
    if |s| <= k {
      DecimalStringValue(n);
      ShortDecimalIsSmall(n, k);
      ModUnique(n, Pow10(k), 0, n);
    } else if k == 0 {
      assert SliceFromEnd(s, k) == [];
    } else {
      SuffixSplit(n, k);
      var p := Pow10(k - 1);
      var rest := SliceFromEnd(DecimalString(n / 10), k - 1);
      var slice := rest + [('0' as int + n % 10) as char];
      assert slice[..|slice| - 1] == rest;
      DecimalSuffixValue(n / 10, k - 1);
      assert DecimalValue(slice) == 10 * ((n / 10) % p) + n % 10;
      ModByTenTimes(n, p);
      assert Pow10(k) == 10 * p;
    }
  }

  /** The integer key a parameter compares equal to in `WHERE id = ?`, or None
      when it can equal no AUTO_INCREMENT key (absent, null, negative, not numeric). */
  function IdOf(v: JsVal): (r: Option<nat>)
    ensures v.Num? && v.n >= 0 ==> r == Some(v.n)
    ensures IsNullish(v) ==> r.None?
  {
    match v
    case Num(n) => if n >= 0 then Some(n) else None
    case Str(s) => if s != "" && AllDigits(s) then Some(DecimalValue(s)) else None
    case _ => None
  }

  /** `parseInt(s)` for the paths and fields the app builds: the value of the leading
      decimal digits, with anything after them ignored; None stands for NaN. Leading
      white space, a sign and the "0x" hexadecimal prefix, which `parseInt` also
      accepts, are not modelled: the app never builds such text. */
  function ParseInt(s: string): (r: Option<nat>)
    ensures r.Some? <==> s != [] && IsDigit(s[0])
  {
    var d := DigitPrefix(s);
    if d == [] then None else Some(DecimalValue(d))
  }

  /** The longest prefix of `s` made of digits. */
  function DigitPrefix(s: string): (r: string)
    ensures AllDigits(r) && |r| <= |s| && r == s[..|r|]
    ensures r == [] <==> (s == [] || !IsDigit(s[0]))
    ensures |r| < |s| ==> !IsDigit(s[|r|])
  {
    if s != [] && IsDigit(s[0]) then [s[0]] + DigitPrefix(s[1..]) else []
  }
}
