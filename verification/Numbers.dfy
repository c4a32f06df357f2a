/** Decimal integers as Go's `strconv` and `fmt` write and read them (64-bit `int`). */
module Numbers {
  import opened Text

  const MIN_INT := -0x8000_0000_0000_0000
  const MAX_INT := 0x7FFF_FFFF_FFFF_FFFF

  predicate InRange(n: int) {
    MIN_INT <= n <= MAX_INT
  }

  predicate IsDigit(c: char) {
    '0' <= c <= '9'
  }

  predicate AllDigits(s: string) {
    forall c | c in s :: IsDigit(c)
  }

  /** Decimal digits of a natural number, most significant first. */
  function Digits(n: nat): (s: string)
    ensures s != "" && AllDigits(s)
  {
    if n < 10 then [('0' as int + n) as char]
    else Digits(n / 10) + [('0' as int + n % 10) as char]
  }

  function Value(s: string): nat
    requires AllDigits(s)
  {
    if s == "" then 0
    else
      assert s[|s| - 1] in s;
      10 * Value(s[..|s| - 1]) + (s[|s| - 1] as int - '0' as int)
  }

  lemma {:induction false} ValueOfDigits(n: nat)
    ensures Value(Digits(n)) == n
  {
    if n >= 10 {
      ValueOfDigits(n / 10);
      assert Digits(n)[..|Digits(n)| - 1] == Digits(n / 10);
    }
  }

  /** `strconv.Itoa` and the verb %d. */
  function Itoa(n: int): string {
    if n < 0 then "-" + Digits(-n) else Digits(n)
  }

  /** The digits after an optional sign, and whether the sign is negative. */
  function Sign(s: string): (bool, string) {
    if s != "" && s[0] == '-' then (true, s[1..])
    else if s != "" && s[0] == '+' then (false, s[1..])
    else (false, s)
  }

  function Signed(negative: bool, digits: string): Option<int>
    requires AllDigits(digits)
  {
    var v: int := Value(digits);
    var n: int := if negative then 0 - v else v;
    if digits != "" && InRange(n) then Some(n) else None
  }

  /** `strconv.Atoi`: the whole string must be an optionally signed 64-bit decimal. */
  function Atoi(s: string): Option<int> {
    var (negative, digits) := Sign(s);
    if AllDigits(digits) then Signed(negative, digits) else None
  }

  function DigitPrefix(s: string): (d: string)
    ensures AllDigits(d)
  {
    if s != "" && IsDigit(s[0]) then [s[0]] + DigitPrefix(s[1..]) else ""
  }

  /** `fmt.Sscanf(s, "%d", &n)` on a string without leading white space: the longest
      run of digits after an optional sign; what follows is not looked at. */
  function ScanInt(s: string): Option<int> {
    var (negative, digits) := Sign(s);
    Signed(negative, DigitPrefix(digits))
  }

  lemma {:induction false} DigitPrefixOfDigits(s: string)
    requires AllDigits(s)
    ensures DigitPrefix(s) == s
  {
    if s != "" {
      assert s[0] in s;
      DigitPrefixOfDigits(s[1..]);
      assert s == [s[0]] + s[1..];
    }
  }

  /** Printing an integer and reading it back, either way, gives the integer. */
  lemma ItoaRoundTrip(n: int)
    requires InRange(n)
    ensures Atoi(Itoa(n)) == Some(n) && ScanInt(Itoa(n)) == Some(n)
  {
    var d := Digits(if n < 0 then -n else n);
    ValueOfDigits(if n < 0 then -n else n);
    DigitPrefixOfDigits(d);
    assert d[0] in d;
    if n < 0 {
      assert Itoa(n)[1..] == d;
    }
  }

  lemma {:induction false} DigitPrefixStops(d: string, rest: string)
    requires AllDigits(d) && (rest == "" || !('0' <= rest[0] <= '9'))
    ensures DigitPrefix(d + rest) == d
  {
    if d == "" {
      assert d + rest == rest;
    } else {
      assert d[0] in d && (d + rest)[1..] == d[1..] + rest;
      DigitPrefixStops(d[1..], rest);
      assert d == [d[0]] + d[1..];
    }
  }

  lemma SignedTail(n: int, rest: string)
    ensures var d := Digits(if n < 0 then -n else n);
            Sign(Itoa(n) + rest) == (n < 0, d + rest)
  {
    var d := Digits(if n < 0 then -n else n);
    assert d[0] in d && IsDigit(d[0]);
    if n < 0 {
      assert Itoa(n) + rest == "-" + (d + rest) && ("-" + (d + rest))[1..] == d + rest;
    } else {
      assert (d + rest)[0] == d[0];
    }
  }

  /** `ScanInt` does not look at what follows the digits. */
  lemma ScanIntStops(n: int, rest: string)
    requires InRange(n) && (rest == "" || !('0' <= rest[0] <= '9'))
    ensures ScanInt(Itoa(n) + rest) == Some(n)
  {
    var d := Digits(if n < 0 then -n else n);
    ValueOfDigits(if n < 0 then -n else n);
    DigitPrefixStops(d, rest);
    SignedTail(n, rest);
    hide Itoa, Digits, Value, DigitPrefix;
  }

  /** A plus sign is as good as none. */
  lemma PlusIsRead(n: nat)
    requires InRange(n)
    ensures Atoi("+" + Itoa(n)) == Some(n) && ScanInt("+" + Itoa(n)) == Some(n)
  {
    var d := Digits(n);
    ValueOfDigits(n);
    DigitPrefixOfDigits(d);
    assert ("+" + d)[1..] == d;
  }

  /** `Atoi` takes nothing but the number. */
  lemma AtoiTakesAll(n: int, rest: string)
    requires exists c :: c in rest && !('0' <= c <= '9')
    ensures Atoi(Itoa(n) + rest) == None
  {
    var d := Digits(if n < 0 then -n else n);
    SignedTail(n, rest);
    hide Itoa, Digits;
    var c :| c in rest && !('0' <= c <= '9');
    assert c in d + rest;
  }

  lemma ItoaInjective(m: nat, n: nat)
    requires Itoa(m) == Itoa(n)
    ensures m == n
  {
    ValueOfDigits(m);
    ValueOfDigits(n);
  }

  lemma ItoaPlain(n: int)
    ensures Itoa(n) != "" && Trimmed(Itoa(n)) && Itoa(n) != "null"
    ensures forall c | c in Itoa(n) :: c == '-' || IsDigit(c)
  {
    var d := Digits(if n < 0 then -n else n);
    assert d[|d| - 1] in d && d[0] in d;
    assert forall c | c in Itoa(n) :: c == '-' || c in d;
    assert Itoa(n)[0] != 'n';
  }
}
