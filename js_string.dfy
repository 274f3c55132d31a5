/** The JavaScript built-ins on strings, arrays and numbers that the sources
    call: `toLowerCase`, `includes`, `trim`, `padStart`, `toString(radix)`,
    `slice` with a possibly negative end, and the truncating `%`. */
module JsString {

  /** `toLowerCase` on one character. Only the ASCII letters are mapped. */
  function ToLowerChar(c: char): (r: char)
    ensures 'A' <= c <= 'Z' ==> r as int == c as int + 32
    ensures !('A' <= c <= 'Z') ==> r == c
    ensures !('A' <= r <= 'Z')
  {
    if 'A' <= c <= 'Z' then (c as int + 32) as char else c
  }

  /** `String.prototype.toLowerCase`, character by character. */
  function ToLowerCase(s: string): (r: string)
    ensures |r| == |s|
    ensures forall i :: 0 <= i < |s| ==> r[i] == ToLowerChar(s[i])
  {
    seq(|s|, i requires 0 <= i < |s| => ToLowerChar(s[i]))
  }

  lemma ToLowerCaseIdempotent(s: string)
    ensures ToLowerCase(ToLowerCase(s)) == ToLowerCase(s)
  {
  }

  /** `s.includes(sub)`: `sub` occurs in `s` at some position. */
  function Includes(s: string, sub: string): (r: bool)
    ensures r <==> exists i :: 0 <= i <= |s| - |sub| && sub <= s[i..]
  {
    if sub <= s then
      assert sub <= s[0..];
      true
    else if |s| <= |sub| then
      assert s[0..] == s;
      false
    else
      var r := Includes(s[1..], sub);
      assert forall i :: 1 <= i <= |s| - |sub| ==> s[i..] == s[1..][i - 1..];
      assert r ==> exists i :: 1 <= i <= |s| - |sub| && sub <= s[i..] by {
        if r {
          var j :| 0 <= j <= |s[1..]| - |sub| && sub <= s[1..][j..];
          assert s[j + 1..] == s[1..][j..];
        }
      }
      r
  }

  lemma {:induction false} IncludesEmpty(s: string)
    ensures Includes(s, "")
  {
    assert "" <= s[0..];
  }

  lemma {:induction false} IncludesSelf(s: string)
    ensures Includes(s, s)
  {
    assert s <= s[0..];
  }

  /** `sub` cannot occur in `s` when one of its characters is absent from `s`. */
  lemma NotIncludesMissingChar(s: string, sub: string, k: nat)
    requires k < |sub| && sub[k] !in s
    ensures !Includes(s, sub)
  {
    forall i | 0 <= i <= |s| - |sub|
      ensures !(sub <= s[i..])
    {
      assert s[i..][k] == s[i + k];
    }
  }

  /** No position of `s` holds `a` followed by `b`. */
  predicate LacksPair(s: string, a: char, b: char)
  {
    forall i :: 0 <= i < |s| - 1 ==> !(s[i] == a && s[i + 1] == b)
  }

  lemma LacksPairAppend(x: string, y: string, a: char, b: char)
    requires LacksPair(x, a, b) && LacksPair(y, a, b)
    requires x == [] || y == [] || !(x[|x| - 1] == a && y[0] == b)
    ensures LacksPair(x + y, a, b)
  {
    var s := x + y;
    forall i | 0 <= i < |s| - 1
      ensures !(s[i] == a && s[i + 1] == b)
    {
      if i + 1 < |x| {
        assert s[i] == x[i] && s[i + 1] == x[i + 1];
      } else if i >= |x| {
        assert s[i] == y[i - |x|] && s[i + 1] == y[i - |x| + 1];
      }
    }
  }

  /** `sub` cannot occur in `s` when its first two characters never appear
      side by side in `s`. */
  lemma NotIncludesMissingPair(s: string, sub: string)
    requires |sub| >= 2 && LacksPair(s, sub[0], sub[1])
    ensures !Includes(s, sub)
  {
    forall i | 0 <= i <= |s| - |sub|
      ensures !(sub <= s[i..])
    {
      assert s[i..][0] == s[i] && s[i..][1] == s[i + 1];
    }
  }

  /** A WhiteSpace or LineTerminator code point of ECMAScript, the set that
      `String.prototype.trim` removes. */
  predicate IsJsWhitespace(c: char)
  {
    var n := c as int;
    (0x09 <= n <= 0x0D) || n == 0x20 || n == 0xA0 || n == 0x1680 ||
    (0x2000 <= n <= 0x200A) || n == 0x2028 || n == 0x2029 || n == 0x202F ||
    n == 0x205F || n == 0x3000 || n == 0xFEFF
  }

  predicate IsBlank(s: string)
  {
    forall i :: 0 <= i < |s| ==> IsJsWhitespace(s[i])
  }

  /** `trimStart`: the longest whitespace prefix removed. */
  function TrimStart(s: string): (r: string)
    ensures |r| <= |s|
    ensures r == s[|s| - |r|..]
    ensures r != [] ==> !IsJsWhitespace(r[0])
    ensures r == [] <==> IsBlank(s)
  {
    if s == [] then s
    else if IsJsWhitespace(s[0]) then
      var r := TrimStart(s[1..]);
      assert s[1..][|s[1..]| - |r|..] == s[|s| - |r|..];
      r
    else s
  }

  /** `trimEnd`: the longest whitespace suffix removed. */
  function TrimEnd(s: string): (r: string)
    ensures |r| <= |s|
    ensures r == s[..|r|]
    ensures r != [] ==> !IsJsWhitespace(r[|r| - 1])
    ensures r == [] <==> IsBlank(s)
  {
    if s == [] then s
    else if IsJsWhitespace(s[|s| - 1]) then
      var r := TrimEnd(s[..|s| - 1]);
      assert s[..|s| - 1][..|r|] == s[..|r|];
      r
    else s
  }

  /** What `trimStart` drops is whitespace. */
  lemma {:induction false} TrimStartDropsBlank(s: string)
    ensures IsBlank(s[..|s| - |TrimStart(s)|])
    decreases |s|
  {
    if s != [] && IsJsWhitespace(s[0]) {
      var r := TrimStart(s[1..]);
      TrimStartDropsBlank(s[1..]);
      var k := |s| - |r|;
      forall i | 0 <= i < k
        ensures IsJsWhitespace(s[..k][i])
      {
        if i > 0 {
          assert s[..k][i] == s[1..][..k - 1][i - 1];
        }
      }
    }
  }

  /** What `trimEnd` drops is whitespace. */
  lemma {:induction false} TrimEndDropsBlank(s: string)
    ensures IsBlank(s[|TrimEnd(s)|..])
    decreases |s|
  {
    if s != [] && IsJsWhitespace(s[|s| - 1]) {
      var r := TrimEnd(s[..|s| - 1]);
      TrimEndDropsBlank(s[..|s| - 1]);
      forall j | 0 <= j < |s| - |r|
        ensures IsJsWhitespace(s[|r|..][j])
      {
        if j < |s| - 1 - |r| {
          assert s[|r|..][j] == s[..|s| - 1][|r|..][j];
        }
      }
    }
  }

  /** `String.prototype.trim`: both ends stripped of whitespace. */
  function Trim(s: string): (r: string)
    ensures |r| <= |s|
  {
    TrimEnd(TrimStart(s))
  }

  /** Neither end of a non-empty trimmed string is whitespace. */
  lemma TrimEnds(s: string)
    ensures Trim(s) != [] ==> !IsJsWhitespace(Trim(s)[0]) && !IsJsWhitespace(Trim(s)[|Trim(s)| - 1])
  {
    var t := TrimStart(s);
    var r := TrimEnd(t);
    if r != [] {
      assert r[0] == t[0];
    }
  }

  /** The number of leading whitespace characters `trim` removes. */
  function TrimOffset(s: string): nat
  {
    |s| - |TrimStart(s)|
  }

  /** The trimmed string is the stretch of `s` after its leading blanks,
      and only blanks follow it. */
  lemma TrimIsMiddle(s: string)
    ensures TrimOffset(s) + |Trim(s)| <= |s|
    ensures Trim(s) == s[TrimOffset(s)..TrimOffset(s) + |Trim(s)|]
    ensures IsBlank(s[..TrimOffset(s)])
    ensures IsBlank(s[TrimOffset(s) + |Trim(s)|..])
  {
    var t := TrimStart(s);
    TrimStartDropsBlank(s);
    TrimEndDropsBlank(t);
    MiddleOfDrop(s, t, TrimEnd(t), |s| - |t|);
  }

  /** Slicing facts behind TrimIsMiddle, stated without the trim functions. */
  lemma MiddleOfDrop(s: string, t: string, r: string, k: nat)
    requires k <= |s| && t == s[k..] && |r| <= |t| && r == t[..|r|] && IsBlank(t[|r|..])
    ensures k + |r| <= |s| && r == s[k..k + |r|] && IsBlank(s[k + |r|..])
  {
    assert s[k + |r|..] == t[|r|..];
  }

  /** `trim().length === 0` exactly when the string is all whitespace. */
  lemma TrimEmptyIffBlank(s: string)
    ensures |Trim(s)| == 0 <==> IsBlank(s)
  {
    var t := TrimStart(s);
    if t != [] {
      assert !IsJsWhitespace(t[0]);
      assert !IsBlank(t);
    }
  }

  /** `s.padStart(n, fill)` with a one-character fill string. */
  function PadStart(s: string, n: nat, fill: char): (r: string)
    ensures |r| == if |s| >= n then |s| else n
    ensures r[|r| - |s|..] == s
    ensures forall i :: 0 <= i < |r| - |s| ==> r[i] == fill
  {
    if |s| >= n then s else seq(n - |s|, _ => fill) + s
  }

  /** The digit of value `d` as `Number.prototype.toString` writes it
      (lower-case letters above 9). */
  function DigitChar(d: nat): (c: char)
    requires d < 36
  {
    if d < 10 then ('0' as int + d) as char else ('a' as int + d - 10) as char
  }

  /** The value of a digit character, if it is one (lower case only). */
  function DigitValue(c: char): (v: int)
  {
    if '0' <= c <= '9' then c as int - '0' as int
    else if 'a' <= c <= 'z' then c as int - 'a' as int + 10
    else -1
  }

  lemma DigitRoundTrip(d: nat)
    requires d < 36
    ensures DigitValue(DigitChar(d)) == d
  {
  }

  /** One step of writing `n` in base `radix`: quotient and last digit. */
  lemma DivStep(n: nat, radix: nat)
    requires 2 <= radix <= n
    ensures 0 < n / radix < n && 0 <= n % radix < radix
    ensures n == (n / radix) * radix + n % radix
  {
    var q, d := n / radix, n % radix;
    assert n == q * radix + d && 0 <= d < radix;
    TimesAtLeastTwo(q, radix);
  }

  /** Multiplying by at least two at least doubles, and gives zero only
      for zero. */
  lemma TimesAtLeastTwo(q: int, radix: int)
    requires q >= 0 && radix >= 2
    ensures q * radix >= 2 * q
    ensures q * radix == 0 ==> q == 0
  {
    assert q * radix == 2 * q + q * (radix - 2);
  }

  /** `n.toString(radix)` for a non-negative integer `n`. */
  function NatToString(n: nat, radix: nat): (r: string)
    requires 2 <= radix <= 36
    ensures |r| >= 1
    ensures n < radix <==> |r| == 1
    ensures r[0] != '0' || n == 0
    decreases n
  {
    if n < radix then [DigitChar(n)]
    else
      DivStep(n, radix);
      var q, d := n / radix, n % radix;
      NatToString(q, radix) + [DigitChar(d)]
  }

  /** The value denoted by a string of digits in `radix`. */
  function DigitsValue(s: string, radix: nat): int
    decreases |s|
  {
    if s == [] then 0 else DigitsValue(s[..|s| - 1], radix) * radix + DigitValue(s[|s| - 1])
  }

  /** Reading back what `toString(radix)` wrote gives the number. */
  lemma {:induction false} NatToStringRoundTrip(n: nat, radix: nat)
    requires 2 <= radix <= 36
    ensures DigitsValue(NatToString(n, radix), radix) == n
    decreases n
  {
    var r := NatToString(n, radix);
    if n < radix {
      DigitRoundTrip(n);
      assert r[..0] == [];
    } else {
      DivStep(n, radix);
      var q, d := n / radix, n % radix;
      NatToStringRoundTrip(q, radix);
      DigitRoundTrip(d);
      assert r[..|r| - 1] == NatToString(q, radix);
    }
  }

  /** `String(n)` for a non-negative integer. */
  function NatToDecimal(n: nat): (r: string)
    ensures |r| >= 1
    ensures DigitsValue(r, 10) == n
    ensures r[0] != '0' || n == 0
    ensures forall i :: 0 <= i < |r| ==> '0' <= r[i] <= '9'
  {
    NatToStringRoundTrip(n, 10);
    DecimalDigits(n);
    NatToString(n, 10)
  }

  /** In base 10 every digit written is one of '0' to '9'. */
  lemma {:induction false} DecimalDigits(n: nat)
    ensures forall i :: 0 <= i < |NatToString(n, 10)| ==> '0' <= NatToString(n, 10)[i] <= '9'
    decreases n
  {
    if n >= 10 {
      DivStep(n, 10);
      DecimalDigits(n / 10);
    }
  }

  /** `s.slice(0, end)`: a negative `end` counts from the end of `s`. */
  function SliceTo<T>(s: seq<T>, end: int): (r: seq<T>)
    ensures end >= 0 ==> |r| == if end <= |s| then end else |s|
    ensures end < 0 ==> |r| == if |s| + end >= 0 then |s| + end else 0
    ensures r == s[..|r|]
  {
    var k := if end < 0 then (if |s| + end < 0 then 0 else |s| + end)
             else if end <= |s| then end else |s|;
    s[..k]
  }

  /** JavaScript's `%`: the remainder takes the sign of the dividend. */
  function JsRem(a: int, b: int): (r: int)
    requires b != 0
    ensures a >= 0 && b > 0 ==> 0 <= r < b
    ensures a < 0 && b > 0 ==> -b < r <= 0
    ensures a >= 0 && b < 0 ==> 0 <= r < -b
    ensures a < 0 && b < 0 ==> b < r <= 0
    ensures a == TruncDiv(a, b) * b + r
  {
    if a >= 0 then a % b
    else
      var q := (-a) / b;
      assert -a == q * b + (-a) % b;
      assert (-q) * b == -(q * b);
      -((-a) % b)
  }

  /** The quotient rounded toward zero, the one `%` pairs with in
      ECMAScript: `a - trunc(a / b) * b`. */
  function TruncDiv(a: int, b: int): int
    requires b != 0
  {
    if a >= 0 then a / b else -((-a) / b)
  }

  /** A JavaScript number: a finite value, an infinity or `NaN`. */
  datatype JsNumber = NaN | Infinity(negative: bool) | Finite(value: real)

  /** `n <= bound`: false for `NaN`, and decided by the sign for an infinity. */
  predicate AtMost(n: JsNumber, bound: real)
  {
    match n
    case NaN => false
    case Infinity(negative) => negative
    case Finite(v) => v <= bound
  }
}
