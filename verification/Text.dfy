/** The few string operations the code relies on. */
module Text {
  /** String.toUpperCase on ASCII. */
  function ToUpper(s: string): string {
    seq(|s|, i requires 0 <= i < |s| => if 'a' <= s[i] <= 'z' then s[i] - 'a' + 'A' else s[i])
  }

  /** Letters from a to z become those 32 places before them; everything else stays. */
  lemma ToUpperIs(s: string)
    ensures |ToUpper(s)| == |s|
    ensures forall i :: 0 <= i < |s| ==> ToUpper(s)[i] as int == if 97 <= s[i] as int <= 122 then s[i] as int - 32 else s[i] as int
  {
    forall i | 0 <= i < |s| ensures ToUpper(s)[i] as int == if 97 <= s[i] as int <= 122 then s[i] as int - 32 else s[i] as int {
    }
  }

  predicate IsDigit(c: char) { '0' <= c <= '9' }

  /** A string that String.trim leaves empty (ASCII white space). */
  predicate Blank(s: string) {
    forall c :: c in s ==> c == ' ' || '\t' <= c <= '\r'
  }

  /** String(n) for a non-negative integer. */
  function Decimal(n: nat): (r: string)
    ensures |r| > 0 && (n < 10 <==> |r| == 1)
    ensures forall i :: 0 <= i < |r| ==> IsDigit(r[i])
  {
    var digit := '0' + (n % 10) as char;
    if n < 10 then [digit] else Decimal(n / 10) + [digit]
  }

  /** The number a string of digits stands for. */
  function Value(s: string): nat
    requires forall i :: 0 <= i < |s| ==> IsDigit(s[i])
  {
    if s == [] then 0 else
    assert IsDigit(s[|s| - 1]);
    10 * Value(s[..|s| - 1]) + (s[|s| - 1] - '0') as nat
  }

  /** The digits of a number stand for it, without a leading zero. */
  lemma {:induction false} DecimalReadsBack(n: nat)
    ensures Value(Decimal(n)) == n && (n > 0 ==> Decimal(n)[0] != '0')
  {
    var s := Decimal(n);
    if n >= 10 {
      assert s[..|s| - 1] == Decimal(n / 10);
      DecimalReadsBack(n / 10);
    } else {
      assert s[..0] == [];
    }
  }

  lemma {:induction false} DecimalInjective(a: nat, b: nat)
    requires Decimal(a) == Decimal(b)
    ensures a == b
  {
    var s, t := Decimal(a), Decimal(b);
    assert s[|s| - 1] == '0' + (a % 10) as char && t[|t| - 1] == '0' + (b % 10) as char;
    assert a % 10 == b % 10;
    if a >= 10 {
      assert s[..|s| - 1] == Decimal(a / 10) && t[..|t| - 1] == Decimal(b / 10);
      DecimalInjective(a / 10, b / 10);
    }
  }
}
