/** Decimal rendering of non-negative integers, as JavaScript's template
    literals print an integral Number (`${Date.now()}`, `${xhr.status}`),
    together with the parser that inverts it. */
module Decimal {

  predicate IsDigit(c: char) {
    '0' <= c <= '9'
  }

  predicate AllDigits(s: string) {
    forall i :: 0 <= i < |s| ==> IsDigit(s[i])
  }

  function DigitChar(d: nat): (c: char)
    requires d < 10
    ensures IsDigit(c)
    ensures c == '0' <==> d == 0
  {
    (48 + d) as char
  }

  function DigitValue(c: char): (d: nat)
    requires IsDigit(c)
    ensures d < 10
    ensures DigitChar(d) == c
  {
    c as int - 48
  }

  /** The shortest decimal numeral of `n`: at least one digit, only digits,
      and a leading zero only for zero itself. */
  function Render(n: nat): (s: string)
    ensures 1 <= |s|
    ensures AllDigits(s)
    ensures s[0] == '0' <==> n == 0
    ensures Canonical(s)
    decreases n
  {
    if n < 10 then [DigitChar(n)] else Render(n / 10) + [DigitChar(n % 10)]
  }

  /** The value of a string of digits, most significant digit first. */
  function Parse(s: string): (n: nat)
    requires AllDigits(s)
    decreases |s|
  {
    if s == [] then 0 else Parse(s[..|s| - 1]) * 10 + DigitValue(s[|s| - 1])
  }

  /** Parsing a rendered numeral gives back the number. */
  lemma {:induction false} ParseRender(n: nat)
    ensures Parse(Render(n)) == n
  {
    var s := Render(n);
    if n < 10 {
      assert s[..|s| - 1] == [];
    } else {
      assert s[..|s| - 1] == Render(n / 10);
      ParseRender(n / 10);
    }
  }

  /** Distinct numbers have distinct numerals. */
  lemma RenderInjective(a: nat, b: nat)
    ensures Render(a) == Render(b) <==> a == b
  {
    if Render(a) == Render(b) {
      ParseRender(a);
      ParseRender(b);
    }
  }

  /** A numeral without a redundant leading zero. */
  predicate Canonical(s: string) {
    1 <= |s| && AllDigits(s) && (s[0] == '0' ==> |s| == 1)
  }

  /** Only a string of zeros parses to zero. */
  lemma {:induction false} ParseZero(s: string)
    requires AllDigits(s)
    requires Parse(s) == 0
    ensures forall i :: 0 <= i < |s| ==> s[i] == '0'
  {
    if s != [] {
      var init := s[..|s| - 1];
      ParseZero(init);
      forall i | 0 <= i < |s|
        ensures s[i] == '0'
      {
        if i < |s| - 1 {
          assert s[i] == init[i];
        }
      }
    }
  }

  /** Rendering a parsed canonical numeral gives back the numeral: together
      with ParseRender, Render is a bijection onto the canonical numerals. */
  lemma {:induction false} RenderParse(s: string)
    requires Canonical(s)
    ensures Render(Parse(s)) == s
    decreases |s|
  {
    var last := |s| - 1;
    if |s| == 1 {
      assert s == [s[0]];
    } else {
      var init := s[..last];
      assert init[0] == s[0];
      RenderParse(init);
      if Parse(init) == 0 {
        ParseZero(init);
        assert false;
      }
      var n := Parse(s);
      assert n / 10 == Parse(init) && n % 10 == DigitValue(s[last]);
      assert s == init + [s[last]];
    }
  }
}
