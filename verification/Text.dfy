/** Strings as the program sees them: white space, and the decimal printer behind every generated id. */
module Text {

  /** Go's `unicode.IsSpace`: the characters `strings.TrimSpace` removes. */
  predicate IsSpace(c: char) {
    || '\t' <= c <= '\r'
    || c == ' '
    || c in ['\U{0085}', '\U{00A0}', '\U{1680}', '\U{2028}', '\U{2029}', '\U{202F}', '\U{205F}', '\U{3000}']
    || '\U{2000}' <= c <= '\U{200A}'
  }

  /** Go's `unicode.IsControl`. */
  predicate IsControl(c: char) {
    c <= '\U{001F}' || '\U{007F}' <= c <= '\U{009F}'
  }

  /** `strings.TrimSpace(s) == ""`. */
  predicate Blank(s: string) {
    forall i | 0 <= i < |s| :: IsSpace(s[i])
  }

  /** `length(btrim(s)) = 0` in SQL, where `btrim` removes spaces only. */
  predicate SqlBlank(s: string) {
    forall i | 0 <= i < |s| :: s[i] == ' '
  }

  /** What the Go validators accept as text, the SQL check constraints accept too. */
  lemma {:induction false} NotBlankIsNotSqlBlank(s: string)
    requires !Blank(s)
    ensures !SqlBlank(s)
  {
    var i :| 0 <= i < |s| && !IsSpace(s[i]);
    assert s[i] != ' ';
  }

  predicate IsDigit(c: char) {
    '0' <= c <= '9'
  }

  function Digit(d: nat): (c: char)
    requires d < 10
    ensures IsDigit(c)
  {
    '0' + d as char
  }

  function DigitValue(c: char): (d: nat)
    requires IsDigit(c)
    ensures d < 10
  {
    (c - '0') as nat
  }

  /** The digits of n, most significant first and without leading zeros. */
  function Digits(n: nat): (s: string)
    ensures |s| > 0
    ensures forall i | 0 <= i < |s| :: IsDigit(s[i])
  {
    if n < 10 then [Digit(n)] else Digits(n / 10) + [Digit(n % 10)]
  }

  /** The number a string of digits stands for. */
  function DigitsValue(s: string): nat
    requires forall i | 0 <= i < |s| :: IsDigit(s[i])
  {
    if s == [] then 0 else 10 * DigitsValue(s[..|s| - 1]) + DigitValue(s[|s| - 1])
  }

  /** `strconv.Itoa`, and `%d` of `fmt.Sprintf`. */
  function Itoa(n: int): string {
    if n < 0 then "-" + Digits(-n) else Digits(n)
  }

  lemma {:induction false} DigitsRoundTrip(n: nat)
    ensures DigitsValue(Digits(n)) == n
  {
    if n < 10 {
      assert Digits(n)[..0] == [];
    } else {
      var front := Digits(n / 10);
      assert Digits(n)[..|Digits(n)| - 1] == front;
      DigitsRoundTrip(n / 10);
    }
  }

  /** Distinct numbers never print alike. */
  lemma {:induction false} ItoaInjective(a: int, b: int)
    requires Itoa(a) == Itoa(b)
    ensures a == b
  {
    assert (a < 0) == (b < 0) by {
      assert IsDigit(Digits(if a < 0 then -a else a)[0]) && IsDigit(Digits(if b < 0 then -b else b)[0]);
    }
    if a < 0 {
      assert Digits(-a) == Itoa(a)[1..] == Itoa(b)[1..] == Digits(-b);
      DigitsRoundTrip(-a);
      DigitsRoundTrip(-b);
    } else {
      DigitsRoundTrip(a);
      DigitsRoundTrip(b);
    }
  }

  /** The generated ids `d1`, `c1`, `q1`, ... */
  function NumberedId(prefix: char, n: int): (id: string)
    ensures !IsSpace(prefix) ==> !Blank(id)
  {
    var printed := [prefix] + Itoa(n);
    assert printed[0] == prefix;
    printed
  }

  /** Printing is decimal notation: one character per digit, the last one for the units. */
  lemma DigitsByTen(n: nat)
    ensures n < 10 ==> Digits(n) == ["0123456789"[n]]
    ensures n >= 10 ==> Digits(n) == Digits(n / 10) + ["0123456789"[n % 10]]
  {
    DigitCharacter(n % 10);
  }

  lemma DigitCharacter(d: nat)
    requires d < 10
    ensures Digit(d) == "0123456789"[d]
  {
    assert "0123456789"[d] as int == '0' as int + d;
  }

  /** A generated id is its prefix and its number. */
  lemma NumberedIdParts(prefix: char, n: nat)
    ensures NumberedId(prefix, n) == [prefix] + Digits(n)
  {
  }

  lemma {:induction false} NumberedIdInjective(prefix: char, a: int, b: int)
    requires NumberedId(prefix, a) == NumberedId(prefix, b)
    ensures a == b
  {
    assert Itoa(a) == NumberedId(prefix, a)[1..] == NumberedId(prefix, b)[1..] == Itoa(b);
    ItoaInjective(a, b);
  }

  lemma {:induction false} NumberedIdsDiffer(prefix: char, a: int, b: int)
    requires a != b
    ensures NumberedId(prefix, a) != NumberedId(prefix, b)
  {
    if NumberedId(prefix, a) == NumberedId(prefix, b) {
      NumberedIdInjective(prefix, a, b);
    }
  }
}
