/** String helpers standing in for Python's `str(int)` and `str.upper()`. */
module Text {

  /** The character of a decimal digit. */
  function Digit(d: nat): (c: char)
    requires d < 10
  {
    ('0' as int + d) as char
  }

  /** Python's `str(n)` on a non-negative int: decimal digits, no leading zero. */
  function NatToString(n: nat): (s: string)
    ensures 1 <= |s|
    ensures 10 <= n ==> 2 <= |s|
    ensures forall i :: 0 <= i < |s| ==> '0' <= s[i] <= '9'
    decreases n
  {
    if n < 10 then [Digit(n)] else NatToString(n / 10) + [Digit(n % 10)]
  }

  /** Different numbers print differently, so keys built from ids never collide. */
  lemma {:induction false} NatToStringInjective(a: nat, b: nat)
    requires NatToString(a) == NatToString(b)
    ensures a == b
    decreases a
  {
    var s := NatToString(a);
    if a < 10 && b < 10 {
      assert Digit(a) == s[0] == Digit(b);
    } else if a < 10 || b < 10 {
      assert false;
    } else {
      assert NatToString(a / 10) == s[..|s| - 1] == NatToString(b / 10);
      assert Digit(a % 10) == s[|s| - 1] == Digit(b % 10);
      NatToStringInjective(a / 10, b / 10);
    }
  }

  predicate IsLowerAscii(c: char) {
    'a' <= c <= 'z'
  }

  /** `str.upper()` on one character, restricted to the ASCII letters. */
  function UpperChar(c: char): (u: char)
    ensures !IsLowerAscii(u)
    ensures IsLowerAscii(c) ==> u as int == c as int - 32
    ensures !IsLowerAscii(c) ==> u == c
  {
    if IsLowerAscii(c) then (c as int - 32) as char else c
  }
}
