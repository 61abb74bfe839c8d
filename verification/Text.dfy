/** Strings as the standard library treats them: white space, line breaks, decimal numbers, order. */
module Text {
  // ----- white space -----

  /** The characters str.strip and the \s of a regular expression take for white space. */
  predicate IsSpace(c: char) {
    var n := c as int;
    9 <= n <= 13 || 28 <= n <= 32 || n == 0x85 || n == 0xA0 || n == 0x1680 || 0x2000 <= n <= 0x200A
    || n == 0x2028 || n == 0x2029 || n == 0x202F || n == 0x205F || n == 0x3000
  }

  /** The characters at which str.splitlines breaks. */
  predicate IsBreak(c: char) {
    var n := c as int;
    10 <= n <= 13 || 28 <= n <= 30 || n == 0x85 || n == 0x2028 || n == 0x2029
  }

  predicate OneLine(s: string) {
    forall i :: 0 <= i < |s| ==> !IsBreak(s[i])
  }

  function StripLeft(s: string): string {
    if s != "" && IsSpace(s[0]) then StripLeft(s[1..]) else s
  }

  function StripRight(s: string): string {
    if s != "" && IsSpace(s[|s| - 1]) then StripRight(s[..|s| - 1]) else s
  }

  function Strip(s: string): string {
    StripRight(StripLeft(s))
  }

  /** No white space at either end. */
  predicate Tight(s: string) {
    s != "" && !IsSpace(s[0]) && !IsSpace(s[|s| - 1])
  }

  lemma StripTight(s: string)
    requires Tight(s)
    ensures Strip(s) == s && Strip(" " + s) == s
  {
    assert (" " + s)[1..] == s;
  }

  lemma {:induction false} StripLeftOneLine(s: string)
    requires OneLine(s)
    ensures OneLine(StripLeft(s))
  {
    if s != "" && IsSpace(s[0]) {
      StripLeftOneLine(s[1..]);
    }
  }

  lemma {:induction false} StripRightOneLine(s: string)
    requires OneLine(s)
    ensures OneLine(StripRight(s))
  {
    if s != "" && IsSpace(s[|s| - 1]) {
      StripRightOneLine(s[..|s| - 1]);
    }
  }

  lemma StripOneLine(s: string)
    requires OneLine(s)
    ensures OneLine(Strip(s))
  {
    StripLeftOneLine(s);
    StripRightOneLine(StripLeft(s));
  }

  /** Which ASCII characters are white space, and which of them end a line. */
  lemma AsciiSpaces(c: char)
    requires c as int < 128
    ensures IsSpace(c) <==> c == ' ' || c == '\t' || c == '\n' || c == '\r' || c as int in {11, 12, 28, 29, 30, 31}
    ensures IsBreak(c) <==> c == '\n' || c == '\r' || c as int in {11, 12, 28, 29, 30}
  {
  }

  // ----- decimal numbers -----

  predicate IsDigit(c: char) { '0' <= c <= '9' }

  function DigitChar(d: nat): (c: char)
    requires d < 10
    ensures IsDigit(c) && DigitValue(c) == d
  {
    (d + 48) as char
  }

  function DigitValue(c: char): nat
    requires IsDigit(c)
  {
    c as int - 48
  }

  /** str of a natural number. */
  function Digits(n: nat): (s: string)
    ensures s != "" && forall i :: 0 <= i < |s| ==> IsDigit(s[i])
  {
    if n < 10 then [DigitChar(n)] else Digits(n / 10) + [DigitChar(n % 10)]
  }

  predicate AllDigits(s: string) {
    forall i :: 0 <= i < |s| ==> IsDigit(s[i])
  }

  function DigitsValue(s: string): nat
    requires AllDigits(s)
  {
    if s == "" then 0 else 10 * DigitsValue(s[..|s| - 1]) + DigitValue(s[|s| - 1])
  }

  /** Printing and reading a number are inverse. */
  lemma {:induction false} DigitsRead(n: nat)
    ensures DigitsValue(Digits(n)) == n
  {
    var s := Digits(n);
    if n < 10 {
      assert s[..0] == "";
    } else {
      DigitsRead(n / 10);
      assert s[..|s| - 1] == Digits(n / 10);
    }
  }

  /** A number is printed without leading zeros. */
  lemma {:induction false} NoLeadingZero(n: nat)
    ensures n < 10 ==> |Digits(n)| == 1
    ensures n >= 10 ==> |Digits(n)| > 1 && Digits(n)[0] != '0'
  {
    if n >= 10 {
      NoLeadingZero(n / 10);
      assert Digits(n)[0] == Digits(n / 10)[0];
      if n < 100 {
        assert DigitsValue(Digits(n / 10)) == n / 10 by { DigitsRead(n / 10); }
        assert Digits(n / 10)[..0] == "";
      }
    }
  }

  // ----- the order of strings -----

  predicate Leq(a: string, b: string) {
    a == "" || (b != "" && (a[0] < b[0] || (a[0] == b[0] && Leq(a[1..], b[1..]))))
  }

  lemma {:induction false} LeqTotal(a: string, b: string)
    ensures Leq(a, b) || Leq(b, a)
  {
    if a != "" && b != "" {
      LeqTotal(a[1..], b[1..]);
    }
  }

  lemma {:induction false} LeqAntisymmetric(a: string, b: string)
    requires Leq(a, b) && Leq(b, a)
    ensures a == b
  {
    if a != "" {
      LeqAntisymmetric(a[1..], b[1..]);
      assert a == [a[0]] + a[1..] && b == [b[0]] + b[1..];
    }
  }

  lemma {:induction false} LeqTransitive(a: string, b: string, c: string)
    requires Leq(a, b) && Leq(b, c)
    ensures Leq(a, c)
  {
    if a != "" && a[0] == b[0] && b[0] == c[0] {
      LeqTransitive(a[1..], b[1..], c[1..]);
    }
  }

  ghost predicate IsLeast(k: string, ks: set<string>) {
    k in ks && forall j :: j in ks ==> Leq(k, j)
  }

  lemma {:induction false} LeastExists(ks: set<string>) returns (least: string)
    requires ks != {}
    ensures IsLeast(least, ks)
    decreases |ks|
  {
    least :| least in ks;
    var rest := ks - {least};
    LeqTotal(least, least);
    if rest != {} {
      var m := LeastExists(rest);
      LeqTotal(m, least);
      if Leq(m, least) {
        least := m;
      } else {
        forall j | j in ks ensures Leq(least, j) {
          if j != least {
            LeqTransitive(least, m, j);
          }
        }
      }
    }
  }

  lemma LeastUnique(a: string, b: string, ks: set<string>)
    requires IsLeast(a, ks) && IsLeast(b, ks)
    ensures a == b
  {
    LeqAntisymmetric(a, b);
  }

  /** The members of a set in ascending order. */
  ghost function Sorted(ks: set<string>): (r: seq<string>)
    ensures forall k :: k in r <==> k in ks
    ensures |r| == |ks|
    decreases |ks|
  {
    if ks == {} then []
    else
      assert exists k :: IsLeast(k, ks) by { var k := LeastExists(ks); }
      var k :| IsLeast(k, ks);
      [k] + Sorted(ks - {k})
  }

  lemma SortedUnfolds(k: string, ks: set<string>)
    requires IsLeast(k, ks)
    ensures Sorted(ks) == [k] + Sorted(ks - {k})
  {
    LeastUnique(k, Sorted(ks)[0], ks);
  }

  lemma SortedAt(k: string, ks: set<string>, i: nat)
    requires IsLeast(k, ks) && i < |ks|
    ensures |Sorted(ks - {k})| == |ks| - 1
    ensures Sorted(ks)[i] == if i == 0 then k else Sorted(ks - {k})[i - 1]
  {
    SortedUnfolds(k, ks);
    FirstThenRest(k, Sorted(ks - {k}), Sorted(ks), i);
  }

  lemma FirstThenRest(k: string, rest: seq<string>, all: seq<string>, i: nat)
    requires all == [k] + rest && i < |all|
    ensures |rest| == |all| - 1 && all[i] == if i == 0 then k else rest[i - 1]
  {
  }

  predicate Distinct(s: seq<string>) {
    forall i, j :: 0 <= i < j < |s| ==> s[i] != s[j]
  }

  lemma DistinctGrows(k: string, rest: seq<string>)
    requires Distinct(rest) && k !in rest
    ensures Distinct([k] + rest)
  {
  }

  lemma {:induction false} SortedHasNoDuplicates(ks: set<string>)
    ensures Distinct(Sorted(ks))
    decreases |ks|
  {
    if ks != {} {
      var k := LeastExists(ks);
      SortedHasNoDuplicates(ks - {k});
      DistinctGrows(k, Sorted(ks - {k}));
      SortedUnfolds(k, ks);
    }
  }

  lemma LeastIsFirst(k: string, ks: set<string>, j: nat)
    requires IsLeast(k, ks) && j < |ks|
    ensures Leq(k, Sorted(ks)[j])
  {
    assert Sorted(ks)[j] in ks;
  }

  /** Sorting by code points, as sorted() does. */
  lemma {:induction false} SortedAscends(ks: set<string>, i: nat, j: nat)
    requires i <= j < |ks|
    ensures Leq(Sorted(ks)[i], Sorted(ks)[j])
    decreases |ks|
  {
    var k := LeastExists(ks);
    SortedAt(k, ks, i);
    if i == 0 {
      LeastIsFirst(k, ks, j);
    } else {
      SortedAt(k, ks, j);
      SortedAscends(ks - {k}, i - 1, j - 1);
    }
  }
}
