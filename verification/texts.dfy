/** Numbers as text, and texts that are joined by a separator. */
module Texts {

  /** The separator does not occur in s. */
  predicate Free(s: string, sep: char) {
    forall i :: 0 <= i < |s| ==> s[i] != sep
  }

  predicate IsDigit(c: char) {
    '0' <= c <= '9'
  }

  function Digit(d: nat): (c: char)
    requires d < 10
    ensures IsDigit(c)
  {
    (48 + d) as char
  }

  /** A number that is not negative, in decimal. */
  function Digits(n: nat): string {
    if n < 10 then [Digit(n)] else Digits(n / 10) + [Digit(n % 10)]
  }

  /** strconv.Itoa. */
  function Itoa(n: int): string {
    if n < 0 then "-" + Digits(-n) else Digits(n)
  }

  lemma {:induction false} DigitsOnly(n: nat)
    ensures |Digits(n)| >= 1 && forall i :: 0 <= i < |Digits(n)| ==> IsDigit(Digits(n)[i])
  {
    if n >= 10 {
      DigitsOnly(n / 10);
    }
  }

  lemma {:induction false} DigitsInjective(m: nat, n: nat)
    ensures Digits(m) == Digits(n) ==> m == n
  {
    DigitsOnly(m / 10);
    DigitsOnly(n / 10);
    if m >= 10 && n >= 10 {
      DigitsInjective(m / 10, n / 10);
      LastApart(Digits(m / 10), Digit(m % 10), Digits(n / 10), Digit(n % 10));
    }
  }

  lemma LastApart(a: string, c: char, a': string, c': char)
    ensures a + [c] == a' + [c'] ==> a == a' && c == c'
  {
    var s, s' := a + [c], a' + [c'];
    assert s[|a|] == c && s'[|a'|] == c' && s[..|a|] == a && s'[..|a'|] == a';
  }

  /** Different numbers have different texts, and those hold digits and the sign only. */
  lemma ItoaTells(m: int, n: int, sep: char)
    requires !IsDigit(sep) && sep != '-'
    ensures Itoa(m) == Itoa(n) <==> m == n
    ensures Free(Itoa(m), sep)
  {
    var a, b := if m < 0 then -m else m, if n < 0 then -n else n;
    hide Digits;
    DigitsOnly(a);
    DigitsOnly(b);
    DigitsInjective(a, b);
    assert ("-" + Digits(a))[1..] == Digits(a) && ("-" + Digits(b))[1..] == Digits(b);
    assert ("-" + Digits(a))[0] == '-' == ("-" + Digits(b))[0];
  }

  lemma TailIsLonger(a: string, b: string, a': string, b': string, sep: char)
    requires a + [sep] + b == a' + [sep] + b' && Free(b', sep)
    ensures |b| >= |b'|
  {
    var s := a' + [sep] + b';
    assert (a + [sep] + b)[|a|] == sep;
    assert forall k :: |a'| < k < |s| ==> s[k] == b'[k - |a'| - 1];
  }

  /** The last separator is where both texts were joined. */
  lemma LastSeparator(a: string, b: string, a': string, b': string, sep: char)
    requires Free(b, sep) && Free(b', sep)
    ensures a + [sep] + b == a' + [sep] + b' <==> a == a' && b == b'
  {
    var s, s' := a + [sep] + b, a' + [sep] + b';
    if s == s' {
      TailIsLonger(a, b, a', b', sep);
      TailIsLonger(a', b', a, b, sep);
      assert s[..|a|] == a && s'[..|a'|] == a' && s[|a| + 1..] == b && s'[|a'| + 1..] == b';
    }
  }
}
