/** Text: stripping, case, decimal numerals and how text sorts. */
module Text {
  import opened Model

  predicate Blank(c: char) {
    c in {' ', '\t', '\n', '\r'}
  }

  /** Nonempty and equal to its own `strip()`. */
  predicate Normalized(s: string) {
    |s| > 0 && !Blank(s[0]) && !Blank(s[|s| - 1])
  }

  function Strip(s: string): string {
    if s == "" then s
    else if Blank(s[0]) then Strip(s[1..])
    else if Blank(s[|s| - 1]) then Strip(s[..|s| - 1])
    else s
  }

  function LowerChar(c: char): char {
    if 'A' <= c <= 'Z' then (c as int + 32) as char else c
  }

  function Lower(s: string): string {
    seq(|s|, i requires 0 <= i < |s| => LowerChar(s[i]))
  }

  function UpperChar(c: char): char {
    if 'a' <= c <= 'z' then (c as int - 32) as char else c
  }

  function Upper(s: string): string {
    seq(|s|, i requires 0 <= i < |s| => UpperChar(s[i]))
  }

  lemma UpperTwice(s: string)
    ensures Upper(Upper(s)) == Upper(s) && (Upper(s) == "" <==> s == "")
  {
  }


  function Digit(d: nat): char
    requires d < 10
  {
    ('0' as int + d) as char
  }

  function Decimal(n: nat): string
  {
    if n < 10 then [Digit(n)] else Decimal(n / 10) + [Digit(n % 10)]
  }

  lemma {:induction false} DecimalIsDigits(n: nat)
    ensures |Decimal(n)| > 0 && forall i :: 0 <= i < |Decimal(n)| ==> '0' <= Decimal(n)[i] <= '9'
  {
    if n >= 10 {
      DecimalIsDigits(n / 10);
    }
  }

  lemma {:induction false} DecimalInjective(m: nat, n: nat)
    requires Decimal(m) == Decimal(n)
    ensures m == n
  {
    DecimalIsDigits(m / 10);
    DecimalIsDigits(n / 10);
    var s := Decimal(m);
    assert s[|s| - 1] == Digit(m % 10) == Digit(n % 10);
    if m >= 10 && n >= 10 {
      assert s[..|s| - 1] == Decimal(m / 10) == Decimal(n / 10);
      DecimalInjective(m / 10, n / 10);
    }
  }

  /** The numeral's value; leading zeros and foreign characters make it no numeral. */
  function ParseDecimal(s: string): Option<nat> {
    if |s| == 0 || !('0' <= s[|s| - 1] <= '9') then None
    else
      var d := s[|s| - 1] as int - '0' as int;
      if |s| == 1 then Some(d)
      else
        match ParseDecimal(s[..|s| - 1])
        case None => None
        case Some(v) => if v == 0 then None else Some(10 * v + d)
  }

  lemma {:induction false} ParseOfDecimal(n: nat)
    ensures ParseDecimal(Decimal(n)) == Some(n)
  {
    if n >= 10 {
      ParseOfDecimal(n / 10);
      DecimalIsDigits(n / 10);
      var s := Decimal(n);
      assert s[..|s| - 1] == Decimal(n / 10);
    }
  }

  lemma {:induction false} DecimalOfParse(s: string)
    requires ParseDecimal(s).Some?
    ensures Decimal(ParseDecimal(s).value) == s
  {
    var d := s[|s| - 1] as int - '0' as int;
    if |s| > 1 {
      DecimalOfParse(s[..|s| - 1]);
      var v := ParseDecimal(s[..|s| - 1]).value;
      assert (10 * v + d) / 10 == v && (10 * v + d) % 10 == d;
      assert s == s[..|s| - 1] + [s[|s| - 1]];
    } else {
      assert s == [Digit(d)];
    }
  }

  function IntText(n: int): string {
    if n < 0 then "-" + Decimal(-n) else Decimal(n)
  }

  lemma IntTextHasNoColon(n: int)
    ensures ':' !in IntText(n)
  {
    DecimalIsDigits(if n < 0 then -n else n);
  }

  lemma IntTextInjective(m: int, n: int)
    requires IntText(m) == IntText(n)
    ensures m == n
  {
    DecimalIsDigits(if m < 0 then -m else m);
    DecimalIsDigits(if n < 0 then -n else n);
    assert n < 0 ==> IntText(n)[0] == '-';
    if m < 0 {
      assert IntText(m)[0] == '-';
      assert IntText(m)[1..] == Decimal(-m) && IntText(n)[1..] == Decimal(-n);
      DecimalInjective(-m, -n);
    } else {
      DecimalInjective(m, n);
    }
  }

  // --------------------------------------------------------------- text order

  /** Python's order on texts: by the first character that differs, or by length. */
  predicate TextLe(a: string, b: string) {
    if a == "" then true
    else if b == "" then false
    else if a[0] != b[0] then a[0] < b[0]
    else TextLe(a[1..], b[1..])
  }

  lemma {:induction false} TextLeTotal(a: string, b: string)
    ensures TextLe(a, b) || TextLe(b, a)
  {
    if a != "" && b != "" && a[0] == b[0] {
      TextLeTotal(a[1..], b[1..]);
    }
  }

  lemma {:induction false} TextLeTransitive(a: string, b: string, c: string)
    requires TextLe(a, b) && TextLe(b, c)
    ensures TextLe(a, c)
  {
    if a != "" && b != "" && c != "" && a[0] == b[0] == c[0] {
      TextLeTransitive(a[1..], b[1..], c[1..]);
    }
  }

  lemma {:induction false} TextLeAfter(prefix: string, a: string, b: string)
    ensures TextLe(prefix + a, prefix + b) <==> TextLe(a, b)
  {
    if prefix == "" {
      assert prefix + a == a && prefix + b == b;
    } else {
      assert (prefix + a)[1..] == prefix[1..] + a && (prefix + b)[1..] == prefix[1..] + b;
      TextLeAfter(prefix[1..], a, b);
    }
  }

  /** Numerals of one digit sort as their numbers do. */
  lemma DigitsSortAsNumbers(m: nat, n: nat)
    requires m < 10 && n < 10
    ensures TextLe(Decimal(m), Decimal(n)) <==> m <= n
  {
    if m == n {
      assert Decimal(m)[1..] == "";
    }
  }

  /** With two digits they do not: ten sorts before two. */
  lemma TenSortsBeforeTwo()
    ensures TextLe(Decimal(10), Decimal(2)) && !TextLe(Decimal(2), Decimal(10))
  {
    assert Decimal(10) == Decimal(1) + [Digit(0)];
    assert Decimal(10)[0] == '1' && Decimal(2) == ['2'];
  }
}
