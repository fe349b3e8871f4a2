/** String and list helpers that both pages use: indexOf, the address abbreviation, decimal digits. */
module Text {

  /** JavaScript's `indexOf`: the first position of `x` in `s`, or -1 when `x` does not occur. */
  function IndexOf<T(==)>(s: seq<T>, x: T): (r: int)
    ensures -1 <= r < |s|
    ensures r == -1 <==> x !in s
    ensures 0 <= r ==> s[r] == x && x !in s[..r]
  {
    if s == [] then -1
    else if s[0] == x then 0
    else
      var k := IndexOf(s[1..], x);
      if k == -1 then -1 else k + 1
  }

  /** `s.substr(0, 6)`: the first six characters, or all of a shorter string. */
  function Head6(s: string): string {
    if |s| <= 6 then s else s[..6]
  }

  /** `s.substr(-4)`: the last four characters, or all of a shorter string. */
  function Tail4(s: string): string {
    if |s| <= 4 then s else s[|s| - 4..]
  }

  /**
   * The short form of a wallet address shown in the header: its first six
   * characters, "...", its last four (js/main.js:311, js/profile.js:139).
   */
  function Abbreviate(address: string): (r: string)
    ensures |r| == (if |address| < 6 then |address| else 6) + 3 + (if |address| < 4 then |address| else 4)
    ensures r[..|Head6(address)|] == Head6(address) && r[|Head6(address)|..|Head6(address)| + 3] == "..."
    ensures r[|r| - |Tail4(address)|..] == Tail4(address)
  {
    Head6(address) + "..." + Tail4(address)
  }

  /** An address of at least ten characters is its abbreviation with the hidden middle put back. */
  lemma AbbreviationHidesOnlyTheMiddle(address: string)
    requires |address| >= 10
    ensures |Abbreviate(address)| == 13
    ensures address == Abbreviate(address)[..6] + address[6..|address| - 4] + Abbreviate(address)[9..]
  {
    var r := Abbreviate(address);
    assert r[..6] == address[..6];
    assert r[9..] == address[|address| - 4..];
    assert address == address[..6] + address[6..|address| - 4] + address[|address| - 4..];
  }

  /** An address of at least ten characters abbreviates to its first six, "...", its last four. */
  lemma AbbreviateParts(head: string, middle: string, tail: string)
    requires |head| == 6 && |tail| == 4
    ensures Abbreviate(head + middle + tail) == head + "..." + tail
  {
    var a := head + middle + tail;
    assert a[..6] == head;
    assert a[|a| - 4..] == tail;
  }

  predicate IsDigit(c: char) {
    '0' <= c <= '9'
  }

  predicate AllDigits(s: string) {
    forall i :: 0 <= i < |s| ==> IsDigit(s[i])
  }

  function Digit(d: nat): (c: char)
    requires d < 10
    ensures IsDigit(c)
  {
    (48 + d) as char
  }

  function DigitValue(c: char): nat
    requires IsDigit(c)
  {
    c as int - 48
  }

  /** The decimal text of `n`, as a template literal prints a non-negative integer. */
  function DecimalDigits(n: nat): (s: string)
    ensures |s| >= 1 && AllDigits(s)
    ensures n > 0 ==> s[0] != '0'
  {
    if n < 10 then [Digit(n)] else DecimalDigits(n / 10) + [Digit(n % 10)]
  }

  /** The number a string of decimal digits denotes. */
  function DecimalValue(s: string): nat
    requires AllDigits(s)
  {
    if s == [] then 0 else 10 * DecimalValue(s[..|s| - 1]) + DigitValue(s[|s| - 1])
  }

  /** Reading back the printed digits gives the number that was printed. */
  lemma {:induction false} DecimalRoundTrip(n: nat)
    ensures DecimalValue(DecimalDigits(n)) == n
  {
    if n >= 10 {
      DecimalRoundTrip(n / 10);
      var s := DecimalDigits(n);
      assert s[..|s| - 1] == DecimalDigits(n / 10);
    }
  }

  /** Every four-digit number prints as exactly four digits. */
  lemma FourDigits(n: nat)
    requires 1000 <= n <= 9999
    ensures |DecimalDigits(n)| == 4
  {
    assert |DecimalDigits(n / 1000)| == 1;
    assert |DecimalDigits(n / 100)| == 1 + |DecimalDigits(n / 1000)|;
    assert |DecimalDigits(n / 10)| == 1 + |DecimalDigits(n / 100)|;
  }
}
