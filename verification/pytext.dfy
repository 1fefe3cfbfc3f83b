/** The few Python string operations the adapter relies on: `str()` of an
    integer, `str.isspace`, `str.lstrip()` and the emptiness of `str.strip()`. */
module PyText {

  function DigitChar(d: nat): char
    requires d < 10
  {
    ('0' as int + d) as char
  }

  predicate IsDigit(c: char)
  {
    '0' <= c <= '9'
  }

  /** Decimal digits of a natural number, most significant first. */
  function NatStr(n: nat): string
    decreases n
  {
    if n < 10 then [DigitChar(n)] else NatStr(n / 10) + [DigitChar(n % 10)]
  }

  /** Python's `str(n)` for an `int`. */
  function IntStr(n: int): string
  {
    if n < 0 then "-" + NatStr(-n) else NatStr(n)
  }

  lemma {:induction false} NatStrShape(n: nat)
    ensures 1 <= |NatStr(n)|
    ensures n >= 10 ==> |NatStr(n)| >= 2
    ensures forall i :: 0 <= i < |NatStr(n)| ==> IsDigit(NatStr(n)[i])
    decreases n
  {
    if n >= 10 {
      NatStrShape(n / 10);
    }
  }

  lemma {:induction false} NatStrInjective(a: nat, b: nat)
    requires NatStr(a) == NatStr(b)
    ensures a == b
    decreases a
  {
    NatStrShape(a);
    NatStrShape(b);
    if a >= 10 && b >= 10 {
      var sa, sb := NatStr(a), NatStr(b);
      assert sa[|sa| - 1] == DigitChar(a % 10) && sb[|sb| - 1] == DigitChar(b % 10);
      assert a % 10 == b % 10;
      assert NatStr(a / 10) == sa[..|sa| - 1] == sb[..|sb| - 1] == NatStr(b / 10);
      NatStrInjective(a / 10, b / 10);
    }
  }

  /** `str` is injective on integers: distinct ids never print alike. */
  lemma IntStrInjective(a: int, b: int)
    requires IntStr(a) == IntStr(b)
    ensures a == b
  {
    NatStrShape(if a < 0 then -a else a);
    NatStrShape(if b < 0 then -b else b);
    var sa, sb := IntStr(a), IntStr(b);
    assert (sa[0] == '-') == (a < 0) && (sb[0] == '-') == (b < 0);
    if a < 0 {
      assert NatStr(-a) == sa[1..] == sb[1..] == NatStr(-b);
      NatStrInjective(-a, -b);
    } else {
      NatStrInjective(a, b);
    }
  }

  /** A printed integer contains only a sign and digits, never `_`. */
  lemma IntStrNoUnderscore(n: int)
    ensures '_' !in IntStr(n)
  {
    NatStrShape(if n < 0 then -n else n);
    var s := IntStr(n);
    forall i | 0 <= i < |s| ensures s[i] != '_' {
      if n < 0 && i > 0 {
        assert s[i] == NatStr(-n)[i - 1];
      }
    }
  }

  /** Joining two strings around `_` can be undone when the left part has no `_`. */
  lemma {:induction false} JoinUnderscoreInjective(x1: string, y1: string, x2: string, y2: string)
    requires '_' !in x1 && '_' !in x2
    requires x1 + "_" + y1 == x2 + "_" + y2
    ensures x1 == x2 && y1 == y2
  {
    var s := x1 + "_" + y1;
    assert s[|x1|] == '_' && s[|x2|] == '_';
    assert x1 == s[..|x1|] == x2;
    assert y1 == s[|x1| + 1..] == y2;
  }

  /** Python's `str.isspace` for one character. */
  predicate IsSpace(c: char)
  {
    var n := c as int;
    (9 <= n <= 13) || (28 <= n <= 32) || n == 0x85 || n == 0xA0 || n == 0x1680
    || (0x2000 <= n <= 0x200A) || n == 0x2028 || n == 0x2029 || n == 0x202F
    || n == 0x205F || n == 0x3000
  }

  /** `not s.strip()`: the string is empty once surrounding whitespace is gone. */
  predicate IsBlank(s: string)
  {
    forall i :: 0 <= i < |s| ==> IsSpace(s[i])
  }

  /** How many whitespace characters `s` starts with. */
  function LeadingSpaces(s: string): (n: nat)
    ensures n <= |s|
    ensures forall i | 0 <= i < n :: IsSpace(s[i])
    ensures n < |s| ==> !IsSpace(s[n])
  {
    if s == [] || !IsSpace(s[0]) then 0
    else
      var n := LeadingSpaces(s[1..]);
      assert forall i | 1 <= i < n + 1 :: s[i] == s[1..][i - 1];
      n + 1
  }

  /** Python's `s.lstrip()` with no argument: the suffix after the leading
      whitespace, empty exactly when the whole string is whitespace. */
  function LStrip(s: string): (r: string)
    ensures |r| <= |s| && r == s[|s| - |r|..]
    ensures IsBlank(s[..|s| - |r|])
    ensures r != [] ==> !IsSpace(r[0])
    ensures (r == []) <==> IsBlank(s)
  {
    s[LeadingSpaces(s)..]
  }
}
