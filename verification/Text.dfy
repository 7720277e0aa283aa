// Strings as the services cut and print them: Go's strings.Split and strconv.Atoi,
// Python's str.join and decimal formatting.
module Text {

  function Split(s: string, sep: char): (parts: seq<string>)
    ensures |parts| >= 1
  {
    if s == "" then [""]
    else
      var rest := Split(s[1..], sep);
      if s[0] == sep then [""] + rest else [[s[0]] + rest[0]] + rest[1..]
  }

  function Join(parts: seq<string>, sep: char): string {
    if parts == [] then ""
    else if |parts| == 1 then parts[0]
    else parts[0] + [sep] + Join(parts[1..], sep)
  }

  lemma {:induction false} SplitWhole(a: string, sep: char)
    requires sep !in a
    ensures Split(a, sep) == [a]
  {
    if a != "" {
      SplitWhole(a[1..], sep);
      assert [a[0]] + a[1..] == a;
    }
  }

  lemma {:induction false} SplitFirst(a: string, b: string, sep: char)
    requires sep !in a
    ensures Split(a + [sep] + b, sep) == [a] + Split(b, sep)
  {
    if a == "" {
      assert (a + [sep] + b)[1..] == b;
    } else {
      assert (a + [sep] + b)[1..] == a[1..] + [sep] + b;
      SplitFirst(a[1..], b, sep);
      assert [a[0]] + a[1..] == a;
    }
  }

  lemma {:induction false} SplitJoin(parts: seq<string>, sep: char)
    requires parts != [] && forall i :: 0 <= i < |parts| ==> sep !in parts[i]
    ensures Split(Join(parts, sep), sep) == parts
  {
    if |parts| == 1 {
      SplitWhole(parts[0], sep);
    } else {
      SplitJoin(parts[1..], sep);
      SplitFirst(parts[0], Join(parts[1..], sep), sep);
    }
  }

  // Cutting loses nothing, and no part holds the separator.
  lemma {:induction false} JoinSplit(s: string, sep: char)
    ensures Join(Split(s, sep), sep) == s
    ensures forall i :: 0 <= i < |Split(s, sep)| ==> sep !in Split(s, sep)[i]
  {
    if s != "" {
      JoinSplit(s[1..], sep);
      var rest := Split(s[1..], sep);
      assert s == [s[0]] + s[1..];
      if s[0] != sep {
        assert Split(s, sep)[1..] == rest[1..];
        JoinPrepends(s[0], rest, sep);
      } else {
        assert ([""] + rest)[1..] == rest;
      }
    }
  }

  lemma JoinPrepends(c: char, parts: seq<string>, sep: char)
    requires parts != []
    ensures Join([[c] + parts[0]] + parts[1..], sep) == [c] + Join(parts, sep)
  {
    var longer := [[c] + parts[0]] + parts[1..];
    if |parts| == 1 {
      assert longer == [[c] + parts[0]];
    } else {
      assert longer[1..] == parts[1..];
    }
  }

  predicate IsDigit(c: char) { '0' <= c <= '9' }

  predicate AllDigits(s: string) { forall i :: 0 <= i < |s| ==> IsDigit(s[i]) }

  function Digit(n: nat): (c: char)
    requires n < 10
    ensures IsDigit(c)
  { '0' + n as char }

  function DigitValue(c: char): (n: nat)
    requires IsDigit(c)
    ensures n < 10
  { (c - '0') as nat }

  // Decimal form of n, without leading zeros.
  function Dec(n: nat): (s: string)
    ensures s != "" && AllDigits(s)
  {
    if n < 10 then [Digit(n)] else Dec(n / 10) + [Digit(n % 10)]
  }

  function Number(s: string): nat
    requires AllDigits(s)
  {
    if s == "" then 0 else 10 * Number(s[..|s| - 1]) + DigitValue(s[|s| - 1])
  }

  lemma {:induction false} NumberDec(n: nat)
    ensures Number(Dec(n)) == n
  {
    if n >= 10 {
      NumberDec(n / 10);
      assert Dec(n)[..|Dec(n)| - 1] == Dec(n / 10);
    } else {
      assert Dec(n)[..0] == "";
    }
  }

  lemma DecInjective(m: nat, n: nat)
    requires Dec(m) == Dec(n)
    ensures m == n
  {
    NumberDec(m);
    NumberDec(n);
  }

  lemma {:induction false} DecMonotone(m: nat, n: nat)
    requires m <= n
    ensures |Dec(m)| <= |Dec(n)|
  {
    if m >= 10 {
      DecMonotone(m / 10, n / 10);
    }
  }

  // strconv.Atoi with its error dropped: zero unless the text is an optional sign and digits.
  function Atoi(s: string): int {
    if s != "" && s[0] in "+-" && |s| > 1 && AllDigits(s[1..]) then
      var n: int := Number(s[1..]);
      if s[0] == '-' then -n else n
    else if s != "" && AllDigits(s) then Number(s)
    else 0
  }

  // Two decimal digits, as time.isoformat prints hours, minutes and seconds.
  function Pad2(n: nat): (s: string)
    requires n < 100
    ensures |s| == 2
  {
    [Digit(n / 10), Digit(n % 10)]
  }

  lemma Pad2Plain(n: nat)
    requires n < 100
    ensures AllDigits(Pad2(n)) && ':' !in Pad2(n) && '.' !in Pad2(n)
  {
  }

  lemma AtoiPad2(n: nat)
    requires n < 100
    ensures Atoi(Pad2(n)) == n
  {
    var s := Pad2(n);
    assert s[..1] == [s[0]] && s[..1][..0] == "";
    assert Number(s[..1]) == 10 * Number("") + n / 10;
    assert Number(s) == 10 * (n / 10) + n % 10;
  }
}
