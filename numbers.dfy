/**
 * Decimal rendering of non-negative integers, as JavaScript's template
 * literals render the clock readings and edge indices that go into link ids.
 */
module Numbers {

  /** The decimal digit character for `d`. */
  function Digit(d: nat): (c: char)
    requires d < 10
  {
    ('0' as int + d) as char
  }

  /** The decimal representation of `n`, without leading zeros. */
  function NatToString(n: nat): (s: string)
    decreases n
  {
    if n < 10 then [Digit(n)] else NatToString(n / 10) + [Digit(n % 10)]
  }

  /** A single digit is rendered as one character, every larger number as two or more. */
  lemma {:induction false} NatToStringLength(n: nat)
    ensures |NatToString(n)| >= 1
    ensures n < 10 <==> |NatToString(n)| == 1
    decreases n
  {
    if n >= 10 {
      NatToStringLength(n / 10);
    }
  }

  /** Different numbers have different decimal representations. */
  lemma {:induction false} NatToStringInjective(a: nat, b: nat)
    ensures NatToString(a) == NatToString(b) <==> a == b
    decreases a
  {
    if NatToString(a) == NatToString(b) {
      NatToStringLength(a);
      NatToStringLength(b);
      if a >= 10 && b >= 10 {
        var s := NatToString(a);
        assert s[..|s| - 1] == NatToString(a / 10);
        assert NatToString(b)[..|s| - 1] == NatToString(b / 10);
        assert Digit(a % 10) == s[|s| - 1] == Digit(b % 10);
        NatToStringInjective(a / 10, b / 10);
      } else {
        assert a < 10 && b < 10;
        assert Digit(a) == Digit(b);
      }
    }
  }
}
