/** The names of connections, by which the server's table knows them. */
module Names {
  // The decimal form that snprintf gives a non-negative number.
  function Decimal(n: nat): string {
    if n < 10 then [Digit(n)] else Decimal(n / 10) + [Digit(n % 10)]
  }

  function Digit(d: nat): char
    requires d < 10
  {
    "0123456789"[d]
  }

  function DigitValue(c: char): nat {
    if '0' <= c <= '9' then c as int - '0' as int else 0
  }

  function Value(s: string): nat {
    if s == [] then 0 else 10 * Value(s[..|s| - 1]) + DigitValue(s[|s| - 1])
  }

  lemma DigitHasValue(d: nat)
    requires d < 10
    ensures DigitValue(Digit(d)) == d
  {
  }

  lemma ValueSnoc(s: string, c: char)
    ensures Value(s + [c]) == 10 * Value(s) + DigitValue(c)
  {
    assert (s + [c])[..|s|] == s;
  }

  lemma {:induction false} DecimalHasValue(n: nat)
    ensures Value(Decimal(n)) == n
  {
    DigitHasValue(n % 10);
    if n < 10 {
      ValueSnoc([], Digit(n));
      assert Decimal(n) == [] + [Digit(n)];
    } else {
      DecimalHasValue(n / 10);
      ValueSnoc(Decimal(n / 10), Digit(n % 10));
    }
  }

  function ConnName(prefix: string, id: nat): string {
    prefix + Decimal(id)
  }

  /** A name is the server's prefix followed by the digits of the connection's number. */
  lemma NameTellsTheNumber(prefix: string, id: nat)
    ensures prefix <= ConnName(prefix, id) && Value(ConnName(prefix, id)[|prefix|..]) == id
  {
    assert ConnName(prefix, id)[|prefix|..] == Decimal(id);
    DecimalHasValue(id);
  }

  /** Two connections never get the same name, so the connection table never loses one. */
  lemma NamesAreUnique(prefix: string, i: nat, j: nat)
    ensures ConnName(prefix, i) == ConnName(prefix, j) <==> i == j
  {
    if ConnName(prefix, i) == ConnName(prefix, j) {
      assert Decimal(i) == ConnName(prefix, i)[|prefix|..];
      assert Decimal(j) == ConnName(prefix, j)[|prefix|..];
      DecimalHasValue(i);
      DecimalHasValue(j);
    }
  }
}
