/** Pod ordinals: how the StatefulSet controller writes them and the scripts read them back. */
module Ordinals {
  import opened Names

  predicate Digit(c: char) {
    '0' <= c <= '9'
  }

  predicate AllDigits(s: string) {
    forall i :: 0 <= i < |s| ==> Digit(s[i])
  }

  function DigitValue(c: char): nat
    requires Digit(c)
  {
    c as nat - '0' as nat
  }

  function DigitChar(n: nat): (c: char)
    requires n < 10
    ensures Digit(c) && DigitValue(c) == n
  {
    ('0' as nat + n) as char
  }

  /** The decimal numeral of n, without leading zeros. */
  function Decimal(n: nat): (s: string)
    ensures s != [] && AllDigits(s)
  {
    if n < 10 then [DigitChar(n)] else Decimal(n / 10) + [DigitChar(n % 10)]
  }

  function Value(s: string): nat
    requires AllDigits(s)
  {
    if s == [] then 0 else 10 * Value(s[..|s| - 1]) + DigitValue(s[|s| - 1])
  }

  lemma {:induction false} DecimalValue(n: nat)
    ensures Value(Decimal(n)) == n
  {
    if n >= 10 {
      var s := Decimal(n);
      assert s[..|s| - 1] == Decimal(n / 10);
      DecimalValue(n / 10);
    }
  }

  /** The length of the longest run of digits at the end. */
  function Trailing(s: string): (n: nat)
    ensures n <= |s|
  {
    if s == [] || !Digit(s[|s| - 1]) then 0 else Trailing(s[..|s| - 1]) + 1
  }

  lemma {:induction false} TrailingDigits(s: string)
    ensures AllDigits(s[|s| - Trailing(s)..])
    ensures Trailing(s) < |s| ==> !Digit(s[|s| - Trailing(s) - 1])
  {
    if s != [] && Digit(s[|s| - 1]) {
      var r := s[..|s| - 1];
      TrailingDigits(r);
      assert s[|s| - Trailing(s)..] == r[|r| - Trailing(r)..] + [s[|s| - 1]];
    }
  }

  /** The capture of `-([0-9]+)$`. */
  function Capture(host: string): Option<string> {
    var n := Trailing(host);
    if 0 < n < |host| && host[|host| - n - 1] == '-' then Some(host[|host| - n..]) else None
  }

  lemma {:induction false} TrailingOf(x: string, d: string)
    requires AllDigits(d) && (x == [] || !Digit(x[|x| - 1]))
    ensures Trailing(x + d) == |d|
  {
    if d != [] {
      var s := x + d;
      assert s[..|s| - 1] == x + d[..|d| - 1];
      TrailingOf(x, d[..|d| - 1]);
    } else {
      assert x + d == x;
    }
  }

  /** The captured text is the one way to read the name as something, a dash, and digits. */
  lemma CaptureExact(host: string, d: string)
    ensures Capture(host) == Some(d) <==>
            d != [] && AllDigits(d) && exists x: string :: host == x + "-" + d
  {
    if d != [] && AllDigits(d) && exists x: string :: host == x + "-" + d {
      var x: string :| host == x + "-" + d;
      assert x + "-" + d == (x + "-") + d;
      TrailingOf(x + "-", d);
      assert host[|host| - |d|..] == d;
    }
    if Capture(host) == Some(d) {
      TrailingDigits(host);
      var n := Trailing(host);
      assert host == host[..|host| - n - 1] + "-" + d;
    }
  }

  /** The name the StatefulSet controller gives pod i. */
  function PodName(statefulSet: string, i: nat): string {
    statefulSet + "-" + Decimal(i)
  }

  function Octal(s: string): Option<nat>
    requires AllDigits(s)
  {
    if s == [] then Some(0)
    else
      var r := Octal(s[..|s| - 1]);
      if r.None? || DigitValue(s[|s| - 1]) > 7 then None else Some(8 * r.value + DigitValue(s[|s| - 1]))
  }

  /** Shell arithmetic on a numeral: a leading zero means octal, and then 8 and 9 are errors. */
  function ShellNumber(d: string): Option<nat>
    requires AllDigits(d)
  {
    if |d| > 1 && d[0] == '0' then Octal(d) else Some(Value(d))
  }

  lemma {:induction false} NoLeadingZero(n: nat)
    ensures n > 0 ==> Decimal(n)[0] != '0'
  {
    if n >= 10 {
      NoLeadingZero(n / 10);
      assert Decimal(n)[0] == Decimal(n / 10)[0];
    }
  }

  lemma DecimalIsShellNumber(n: nat)
    ensures ShellNumber(Decimal(n)) == Some(n)
  {
    NoLeadingZero(n);
    DecimalValue(n);
    if n == 0 {
      assert |Decimal(0)| == 1;
    }
  }

  /** The ordinal the scripts find in a host name; a name without one ends the container. */
  function Ordinal(host: string): Option<nat> {
    match Capture(host)
    case None => None
    case Some(d) => if AllDigits(d) then ShellNumber(d) else None
  }

  /** server-id is the ordinal with an offset that avoids the reserved zero. */
  function ServerId(host: string): Option<nat> {
    match Ordinal(host)
    case None => None
    case Some(i) => Some(100 + i)
  }

  lemma PodOrdinal(statefulSet: string, i: nat)
    ensures Ordinal(PodName(statefulSet, i)) == Some(i)
  {
    CaptureExact(PodName(statefulSet, i), Decimal(i));
    DecimalIsShellNumber(i);
  }

  /** For every DbPod name, also with digits and dashes, and every i, the script reads back i. */
  lemma OrdinalRoundTrip(db: string, i: nat)
    ensures Ordinal(PodName(db + Suffix(MysqlPart), i)) == Some(i)
  {
    PodOrdinal(db + Suffix(MysqlPart), i);
  }

  /** Pod i gets server id 100 + i, so ids are never zero and differ between pods, and exactly pod 0 takes
      the primary branch. */
  lemma ServerIdsDistinct(db: string, i: nat, j: nat)
    ensures var a, b := PodName(db + Suffix(MysqlPart), i), PodName(db + Suffix(MysqlPart), j);
            && ServerId(a) == Some(100 + i)
            && (ServerId(a) == ServerId(b) <==> i == j)
            && (Ordinal(a) == Some(0) <==> i == 0)
  {
    OrdinalRoundTrip(db, i);
    OrdinalRoundTrip(db, j);
  }
}
