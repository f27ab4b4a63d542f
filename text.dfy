/** String helpers that the display and path templates of the application
    are built from: Python's `str()` of a non-negative integer or of `None`,
    `str.lower()` restricted to ASCII letters, and a lemma about splitting a
    string at the first occurrence of a separator. */
module Text {
  import opened Outcomes

  predicate IsDigit(c: char) {
    '0' <= c <= '9'
  }

  predicate IsUpper(c: char) {
    'A' <= c <= 'Z'
  }

  function DigitChar(d: nat): (c: char)
    requires d < 10
    ensures IsDigit(c)
    ensures c as int - '0' as int == d
  {
    ['0', '1', '2', '3', '4', '5', '6', '7', '8', '9'][d]
  }

  /** The decimal rendering of `n`, as Python's `str(n)` or an f-string gives it. */
  function DecimalString(n: nat): (s: string)
    ensures |s| >= 1
    ensures forall i :: 0 <= i < |s| ==> IsDigit(s[i])
    ensures n >= 10 ==> |s| >= 2
    decreases n
  {
    if n < 10 then [DigitChar(n)] else DecimalString(n / 10) + [DigitChar(n % 10)]
  }

  /** Distinct numbers render as distinct strings. */
  lemma {:induction false} DecimalStringInjective(a: nat, b: nat)
    requires DecimalString(a) == DecimalString(b)
    ensures a == b
    decreases a
  {
    var s := DecimalString(a);
    if a >= 10 && b >= 10 {
      var sa, sb := DecimalString(a / 10), DecimalString(b / 10);
      assert s == sa + [DigitChar(a % 10)];
      assert s == sb + [DigitChar(b % 10)];
      assert sa == s[..|s| - 1] == sb;
      assert DigitChar(a % 10) == s[|s| - 1] == DigitChar(b % 10);
      DecimalStringInjective(a / 10, b / 10);
    }
  }

  /** Python's `str()` of an integer primary key that may still be `None`
      (an instance that has not been saved yet). */
  function IdString(id: Option<nat>): (s: string)
    ensures |s| >= 1
    ensures '-' !in s
  {
    match id
    case None => "None"
    case Some(n) => DecimalString(n)
  }

  /** Different keys, or a key and `None`, render differently. */
  lemma IdStringInjective(a: Option<nat>, b: Option<nat>)
    requires IdString(a) == IdString(b)
    ensures a == b
  {
    assert IdString(a)[0] == 'N' <==> a.None?;
    assert IdString(b)[0] == 'N' <==> b.None?;
    if a.Some? && b.Some? {
      DecimalStringInjective(a.value, b.value);
    }
  }

  function LowerChar(c: char): char {
    if IsUpper(c) then (c as int - 'A' as int + 'a' as int) as char else c
  }

  /** `str.lower()` on ASCII letters; every other character is kept. */
  function Lower(s: string): (r: string)
    ensures |r| == |s|
    ensures forall i :: 0 <= i < |r| ==> !IsUpper(r[i])
    ensures forall i :: 0 <= i < |s| && !IsUpper(s[i]) ==> r[i] == s[i]
    ensures forall i :: 0 <= i < |s| && IsUpper(s[i]) ==> r[i] as int == s[i] as int + 32
  {
    seq(|s|, i requires 0 <= i < |s| => LowerChar(s[i]))
  }

  /** Lowering twice is lowering once. */
  lemma LowerIdempotent(s: string)
    ensures Lower(Lower(s)) == Lower(s)
  {
  }

  /** When neither left part contains the separator `c`, a string of the shape
      `left + [c] + right` determines both of its parts. */
  lemma SplitAtSeparator(left1: string, right1: string, left2: string, right2: string, c: char)
    requires c !in left1 && c !in left2
    requires left1 + [c] + right1 == left2 + [c] + right2
    ensures left1 == left2 && right1 == right2
  {
    var s := left1 + [c] + right1;
    assert s[|left1|] == c && forall i :: 0 <= i < |left1| ==> s[i] != c;
    assert s[|left2|] == c && forall i :: 0 <= i < |left2| ==> s[i] != c;
    assert |left1| == |left2|;
    assert left1 == s[..|left1|] == left2;
    assert right1 == s[|left1| + 1..] == right2;
  }

  /** A shared prefix can be cancelled. */
  lemma CancelPrefix(prefix: string, a: string, b: string)
    requires prefix + a == prefix + b
    ensures a == b
  {
    assert a == (prefix + a)[|prefix|..];
    assert b == (prefix + b)[|prefix|..];
  }
}
