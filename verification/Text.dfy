/** Strings as the operator handles them: decimal printing, DNS names, IANA port
    names and the order of `slices.Sorted`. Characters stand for bytes. */
module Text {
  import opened Base

  predicate Digit(c: char) { '0' <= c <= '9' }

  predicate Lower(c: char) { 'a' <= c <= 'z' }

  predicate Alnum(c: char) { Digit(c) || Lower(c) }

  predicate AlnumOrHyphen(c: char) { Alnum(c) || c == '-' }

  /* Decimal printing (the verb %d). */

  function DigitChar(d: nat): (c: char)
    requires d < 10
  {
    '0' + d as char
  }

  function Natural(n: nat): string {
    if n < 10 then [DigitChar(n)] else Natural(n / 10) + [DigitChar(n % 10)]
  }

  function Decimal(n: int): string {
    if n < 0 then "-" + Natural(-n) else Natural(n)
  }

  function Pow10(k: nat): nat {
    if k == 0 then 1 else 10 * Pow10(k - 1)
  }

  lemma {:induction false} NaturalIsDigits(n: nat)
    ensures |Natural(n)| >= 1
    ensures forall i :: 0 <= i < |Natural(n)| ==> Digit(Natural(n)[i])
  {
    if n >= 10 {
      NaturalIsDigits(n / 10);
    }
  }

  /** The number a digit string stands for. */
  function ValueOf(s: string): int {
    if s == "" then 0 else 10 * ValueOf(s[..|s| - 1]) + (s[|s| - 1] as int - 48)
  }

  /** Printing a number and reading it again gives the number, and no zero leads. */
  lemma {:induction false} NaturalReads(n: nat)
    ensures ValueOf(Natural(n)) == n
    ensures |Natural(n)| > 1 ==> Natural(n)[0] != '0'
  {
    NaturalIsDigits(n);
    if n >= 10 {
      NaturalReads(n / 10);
      NaturalIsDigits(n / 10);
      var s := Natural(n);
      assert s[..|s| - 1] == Natural(n / 10);
      if n / 10 < 10 {
        assert Natural(n / 10) == [DigitChar(n / 10)];
      }
    } else {
      assert Natural(n)[..0] == "";
    }
  }

  lemma {:induction false} NaturalLength(n: nat, k: nat)
    requires k >= 1 && n < Pow10(k)
    ensures |Natural(n)| <= k
  {
    if n >= 10 {
      NaturalLength(n / 10, k - 1);
    }
  }

  lemma {:induction false} NaturalInjective(m: nat, n: nat)
    requires Natural(m) == Natural(n)
    ensures m == n
  {
    NaturalIsDigits(m / 10);
    NaturalIsDigits(n / 10);
    var s, t := Natural(m), Natural(n);
    assert s[|s| - 1] == t[|t| - 1];
    if m >= 10 && n >= 10 {
      assert Natural(m / 10) == s[..|s| - 1] == t[..|t| - 1] == Natural(n / 10);
      NaturalInjective(m / 10, n / 10);
    }
  }

  lemma DecimalInjective(m: int, n: int)
    requires Decimal(m) == Decimal(n)
    ensures m == n
  {
    NaturalIsDigits(if m < 0 then -m else m);
    NaturalIsDigits(if n < 0 then -n else n);
    assert m < 0 <==> Decimal(m)[0] == '-';
    assert n < 0 <==> Decimal(n)[0] == '-';
    if m < 0 {
      assert Natural(-m) == Decimal(m)[1..] == Decimal(n)[1..] == Natural(-n);
      NaturalInjective(-m, -n);
    } else {
      NaturalInjective(m, n);
    }
  }

  lemma DecimalHasNoSlash(n: int)
    ensures |Decimal(n)| >= 1 && '/' !in Decimal(n)
  {
    NaturalIsDigits(if n < 0 then -n else n);
  }

  /** Splitting at the first slash is unambiguous. */
  lemma SlashSplits(a: string, b: string, x: string, y: string)
    requires '/' !in a && '/' !in b
    requires a + "/" + x == b + "/" + y
    ensures a == b && x == y
  {
    var s, t := a + "/" + x, b + "/" + y;
    assert s[|a|] == '/' && t[|b|] == '/';
    assert forall i :: 0 <= i < |a| ==> s[i] == a[i];
    assert forall i :: 0 <= i < |b| ==> t[i] == b[i];
    assert |a| == |b|;
    assert a == s[..|a|] == t[..|b|] == b;
    assert x == s[|a| + 1..] == t[|b| + 1..] == y;
  }

  /* Names. */

  /** The pattern ^[a-z0-9]([-a-z0-9]*[a-z0-9])?$ */
  predicate LabelShape(s: string) {
    |s| > 0 && Alnum(s[0]) && Alnum(s[|s| - 1]) && forall i :: 0 <= i < |s| ==> AlnumOrHyphen(s[i])
  }

  /** A label of section 2.1 of RFC 1123. */
  predicate DNS1123Label(s: string) { |s| <= 63 && LabelShape(s) }

  /** Labels joined by dots: every dot stands between two alphanumerics. */
  predicate SubdomainShape(s: string) {
    && |s| > 0 && Alnum(s[0]) && Alnum(s[|s| - 1])
    && (forall i :: 0 <= i < |s| ==> AlnumOrHyphen(s[i]) || s[i] == '.')
    && (forall i :: 0 < i < |s| - 1 && s[i] == '.' ==> Alnum(s[i - 1]) && Alnum(s[i + 1]))
  }

  /** The characters of the patterns, by code point: a to z, 0 to 9, and the hyphen. */
  predicate LabelCode(n: int) { 97 <= n <= 122 || 48 <= n <= 57 || n == 45 }

  lemma LabelShapeExact(s: string)
    ensures LabelShape(s) <==>
      s != "" && (forall i :: 0 <= i < |s| ==> LabelCode(s[i] as int)) && s[0] as int != 45 && s[|s| - 1] as int != 45
  {
  }

  /** Cutting at every dot. */
  function SplitDots(s: string): (parts: seq<string>)
    ensures parts != []
    decreases |s|
  {
    if '.' !in s then [s]
    else
      var n := FirstDot(s);
      [s[..n]] + SplitDots(s[n + 1..])
  }

  function FirstDot(s: string): (n: nat)
    requires '.' in s
    ensures n < |s| && s[n] == '.' && '.' !in s[..n]
  {
    if s[0] == '.' then 0
    else
      assert '.' in s[1..];
      1 + FirstDot(s[1..])
  }

  lemma SubdomainCut(s: string, n: nat)
    requires n < |s| && s[n] == '.' && '.' !in s[..n] && SubdomainShape(s)
    ensures LabelShape(s[..n]) && SubdomainShape(s[n + 1..])
  {
    var head, tail := s[..n], s[n + 1..];
    assert Alnum(s[n - 1]) && Alnum(s[n + 1]);
    assert forall i :: 0 <= i < n ==> head[i] == s[i] && s[i] in head;
    assert LabelShape(head);
    assert forall i :: 0 <= i < |tail| ==> tail[i] == s[n + 1 + i];
  }

  lemma SubdomainJoined(s: string, n: nat)
    requires n < |s| && s[n] == '.' && LabelShape(s[..n]) && SubdomainShape(s[n + 1..])
    ensures SubdomainShape(s)
  {
    var head, tail := s[..n], s[n + 1..];
    assert Alnum(head[n - 1]) && Alnum(tail[0]) && Alnum(head[0]) && Alnum(tail[|tail| - 1]);
    forall i | 0 <= i < |s| ensures AlnumOrHyphen(s[i]) || s[i] == '.' {
      assert i < n ==> s[i] == head[i];
      assert i > n ==> s[i] == tail[i - n - 1];
    }
    assert forall i :: 0 <= i < n ==> s[i] == head[i] && s[i] != '.';
    forall i | 0 < i < |s| - 1 && s[i] == '.' ensures Alnum(s[i - 1]) && Alnum(s[i + 1]) {
      if i > n {
        assert s[i] == tail[i - n - 1] && s[i + 1] == tail[i - n];
        assert i > n + 1 ==> s[i - 1] == tail[i - n - 2];
      }
    }
  }

  lemma SubdomainHead(s: string, n: nat)
    requires n < |s| && s[n] == '.' && '.' !in s[..n]
    ensures SubdomainShape(s) <==> LabelShape(s[..n]) && SubdomainShape(s[n + 1..])
  {
    hide SubdomainShape, LabelShape;
    if SubdomainShape(s) {
      SubdomainCut(s, n);
    }
    if LabelShape(s[..n]) && SubdomainShape(s[n + 1..]) {
      SubdomainJoined(s, n);
    }
  }

  lemma DotFree(s: string)
    requires '.' !in s
    ensures SubdomainShape(s) <==> LabelShape(s)
  {
    assert forall i :: 0 <= i < |s| ==> s[i] in s;
  }

  /** A subdomain is one label or more, joined by dots. */
  lemma {:induction false} SubdomainExact(s: string)
    ensures SubdomainShape(s) <==> forall part :: part in SplitDots(s) ==> LabelShape(part)
    decreases |s|
  {
    hide SubdomainShape, LabelShape;
    if '.' !in s {
      DotFree(s);
      assert SplitDots(s) == [s];
    } else {
      var n := FirstDot(s);
      var head, tail := s[..n], SplitDots(s[n + 1..]);
      SubdomainHead(s, n);
      SubdomainExact(s[n + 1..]);
      assert SplitDots(s) == [head] + tail;
      hide SplitDots;
      assert forall part :: part in [head] + tail <==> part == head || part in tail;
    }
  }

  datatype NameProblem = TooLong | BadShape | BadCharset | NoLetter | DoubleHyphen | EdgeHyphen

  /** validation.IsDNS1123Label: one entry per message. */
  function LabelProblems(s: string): seq<NameProblem> {
    (if |s| > 63 then [TooLong] else []) + (if !LabelShape(s) then [BadShape] else [])
  }

  /** validation.IsDNS1123Subdomain: one entry per message. */
  function SubdomainProblems(s: string): seq<NameProblem> {
    (if |s| > 253 then [TooLong] else []) + (if !SubdomainShape(s) then [BadShape] else [])
  }

  predicate HasDoubleHyphen(s: string) {
    exists i :: 0 <= i < |s| - 1 && s[i] == '-' && s[i + 1] == '-'
  }

  predicate HasLetter(s: string) {
    exists i :: 0 <= i < |s| && Lower(s[i])
  }

  /** validation.IsValidPortName: one entry per message. */
  function PortNameProblems(s: string): seq<NameProblem> {
    (if |s| > 15 then [TooLong] else []) +
    (if OutsideCharset(s) then [BadCharset] else []) +
    (if !HasLetter(s) then [NoLetter] else []) +
    (if HasDoubleHyphen(s) then [DoubleHyphen] else []) +
    (if HyphenAtEdge(s) then [EdgeHyphen] else [])
  }

  /** A service name of section 5.1 of RFC 6335, in lower case. */
  predicate ServiceName(s: string) {
    && 1 <= |s| <= 15
    && (forall i :: 0 <= i < |s| ==> AlnumOrHyphen(s[i]))
    && HasLetter(s)
    && s[0] != '-' && s[|s| - 1] != '-'
    && (forall i :: 0 <= i < |s| - 1 ==> !(s[i] == '-' && s[i + 1] == '-'))
  }

  /** One message for each rule of a label that is broken. */
  lemma LabelProblemsExact(s: string)
    ensures TooLong in LabelProblems(s) <==> |s| > 63
    ensures BadShape in LabelProblems(s) <==> !LabelShape(s)
    ensures forall p :: p in LabelProblems(s) ==> p == TooLong || p == BadShape
    ensures LabelProblems(s) == [] <==> DNS1123Label(s)
  {
    hide LabelShape;
  }

  /** One message for each rule of a subdomain that is broken. */
  lemma SubdomainProblemsExact(s: string)
    ensures TooLong in SubdomainProblems(s) <==> |s| > 253
    ensures BadShape in SubdomainProblems(s) <==> !SubdomainShape(s)
    ensures forall p :: p in SubdomainProblems(s) ==> p == TooLong || p == BadShape
  {
    hide SubdomainShape;
  }

  predicate OutsideCharset(s: string) { s == "" || exists i :: 0 <= i < |s| && !AlnumOrHyphen(s[i]) }

  predicate HyphenAtEdge(s: string) { |s| > 0 && (s[0] == '-' || s[|s| - 1] == '-') }

  lemma PortNameProblemsIn(s: string, p: NameProblem)
    ensures p in PortNameProblems(s) <==>
      || (p == TooLong && |s| > 15) || (p == BadCharset && OutsideCharset(s)) || (p == NoLetter && !HasLetter(s))
      || (p == DoubleHyphen && HasDoubleHyphen(s)) || (p == EdgeHyphen && HyphenAtEdge(s))
  {
    hide OutsideCharset, HasLetter, HasDoubleHyphen, HyphenAtEdge;
  }

  /** One message for each rule of a port name that is broken. */
  lemma PortNameProblemsMean(s: string)
    ensures TooLong in PortNameProblems(s) <==> |s| > 15
    ensures BadCharset in PortNameProblems(s) <==> s == "" || exists i :: 0 <= i < |s| && !LabelCode(s[i] as int)
    ensures NoLetter in PortNameProblems(s) <==> forall i :: 0 <= i < |s| ==> !(97 <= s[i] as int <= 122)
    ensures DoubleHyphen in PortNameProblems(s) <==>
      exists i :: 0 <= i < |s| - 1 && s[i] as int == s[i + 1] as int == 45
    ensures EdgeHyphen in PortNameProblems(s) <==> s != "" && (s[0] as int == 45 || s[|s| - 1] as int == 45)
  {
    PortNameProblemsIn(s, TooLong);
    PortNameProblemsIn(s, BadCharset);
    PortNameProblemsIn(s, NoLetter);
    PortNameProblemsIn(s, DoubleHyphen);
    PortNameProblemsIn(s, EdgeHyphen);
    hide PortNameProblems;
  }

  /** The message list is empty exactly on the names of the RFC. */
  lemma PortNameProblemsExact(s: string)
    ensures PortNameProblems(s) == [] <==> ServiceName(s)
  {
  }

  /* The order used by slices.Sorted. */

  predicate LexLe(a: string, b: string) {
    a == "" || (b != "" && (a[0] < b[0] || (a[0] == b[0] && LexLe(a[1..], b[1..]))))
  }

  /** The two first differ at k, where a is smaller. */
  predicate SmallerAt(a: string, b: string, k: int) {
    0 <= k < |a| && k < |b| && a[..k] == b[..k] && a[k] < b[k]
  }

  lemma {:induction false} LexAfterPrefix(a: string, b: string, k: nat)
    requires k <= |a| && k <= |b| && a[..k] == b[..k]
    ensures LexLe(a, b) <==> LexLe(a[k..], b[k..])
  {
    if k == 0 {
      assert a[0..] == a && b[0..] == b;
    } else {
      assert a[k - 1] == a[..k][k - 1] == b[..k][k - 1] == b[k - 1];
      assert a[..k - 1] == a[..k][..k - 1] == b[..k][..k - 1] == b[..k - 1];
      LexAfterPrefix(a, b, k - 1);
      assert a[k - 1..][1..] == a[k..] && b[k - 1..][1..] == b[k..];
    }
  }

  lemma {:induction false} LexDiffers(a: string, b: string) returns (k: int)
    requires LexLe(a, b)
    ensures a <= b || SmallerAt(a, b, k)
  {
    k := 0;
    if a != "" && a[0] == b[0] {
      var i := LexDiffers(a[1..], b[1..]);
      assert a == [a[0]] + a[1..] && b == [b[0]] + b[1..];
      k := i + 1;
      if SmallerAt(a[1..], b[1..], i) {
        assert a[..k] == [a[0]] + a[1..][..i] && b[..k] == [b[0]] + b[1..][..i];
      }
    }
  }

  /** One text comes before another if it is a prefix, or smaller where they first differ. */
  lemma {:induction false} LexLeExact(a: string, b: string)
    ensures LexLe(a, b) <==> a <= b || exists k :: SmallerAt(a, b, k)
  {
    if LexLe(a, b) {
      var k := LexDiffers(a, b);
    }
    if k :| SmallerAt(a, b, k) {
      LexAfterPrefix(a, b, k);
    }
    if a <= b {
      LexAfterPrefix(a, b, |a|);
    }
  }

  lemma {:induction false} LexTotal(a: string, b: string)
    ensures LexLe(a, b) || LexLe(b, a)
    ensures LexLe(a, b) && LexLe(b, a) ==> a == b
  {
    if a != "" && b != "" {
      LexTotal(a[1..], b[1..]);
      assert a == [a[0]] + a[1..] && b == [b[0]] + b[1..];
    }
  }

  lemma {:induction false} LexTransitive(a: string, b: string, c: string)
    requires LexLe(a, b) && LexLe(b, c)
    ensures LexLe(a, c)
  {
    if a != "" && a[0] == b[0] == c[0] {
      LexTransitive(a[1..], b[1..], c[1..]);
    }
  }

  ghost predicate IsLeast(m: string, s: set<string>) {
    m in s && forall x :: x in s ==> LexLe(m, x)
  }

  lemma LeastUnique(m: string, n: string, s: set<string>)
    requires IsLeast(m, s) && IsLeast(n, s)
    ensures m == n
  {
    LexTotal(m, n);
  }

  lemma {:induction false} LeastExists(s: set<string>)
    requires s != {}
    ensures exists m :: IsLeast(m, s)
    decreases s
  {
    var x :| x in s;
    var rest := s - {x};
    if rest == {} {
      LexTotal(x, x);
      assert s == {x};
      assert IsLeast(x, s);
    } else {
      LeastExists(rest);
      var m :| IsLeast(m, rest);
      LexTotal(m, x);
      if LexLe(m, x) {
        assert IsLeast(m, s);
      } else {
        forall y | y in s ensures LexLe(x, y) {
          if y == x {
            LexTotal(x, x);
          } else {
            LexTransitive(x, m, y);
          }
        }
        assert IsLeast(x, s);
      }
    }
  }

  ghost function Least(s: set<string>): (m: string)
    requires s != {}
    ensures IsLeast(m, s)
  {
    LeastExists(s);
    var m :| IsLeast(m, s);
    m
  }

  /** slices.Sorted(maps.Keys(m)) for the key set of m. */
  ghost function SortedKeys(s: set<string>): seq<string>
    decreases s
  {
    if s == {} then [] else [Least(s)] + SortedKeys(s - {Least(s)})
  }

  /** Sorting loses no key, invents none, repeats none, and orders them. */
  lemma {:induction false} SortedKeysExact(s: set<string>)
    ensures Elements(SortedKeys(s)) == s
    ensures Distinct(SortedKeys(s))
    ensures forall i, j :: 0 <= i < j < |SortedKeys(s)| ==> LexLe(SortedKeys(s)[i], SortedKeys(s)[j])
    decreases s
  {
    if s != {} {
      var m := Least(s);
      var rest := SortedKeys(s - {m});
      SortedKeysExact(s - {m});
      assert SortedKeys(s) == [m] + rest;
      assert forall x :: x in rest ==> x in Elements(rest);
      forall x ensures x in Elements(SortedKeys(s)) <==> x in s {
        assert x in SortedKeys(s) <==> x == m || x in rest;
        assert x in rest <==> x in Elements(rest);
      }
    }
  }

  method LeastOf(s: set<string>) returns (m: string)
    requires s != {}
    ensures IsLeast(m, s)
  {
    m :| m in s;
    LexTotal(m, m);
    var seen, rest := {m}, s - {m};
    while rest != {}
      invariant seen + rest == s && IsLeast(m, seen)
      decreases rest
    {
      var x :| x in rest;
      LexTotal(m, x);
      LexTotal(x, x);
      if !LexLe(m, x) {
        forall y | y in seen ensures LexLe(x, y) {
          LexTransitive(x, m, y);
        }
        m := x;
      }
      seen, rest := seen + {x}, rest - {x};
    }
    assert seen == s;
  }

  method SortKeys(s: set<string>) returns (names: seq<string>)
    ensures names == SortedKeys(s)
  {
    names := [];
    var rest := s;
    while rest != {}
      invariant names + SortedKeys(rest) == SortedKeys(s)
      decreases rest
    {
      var m := LeastOf(rest);
      LeastUnique(m, Least(rest), rest);
      names, rest := names + [m], rest - {m};
    }
  }
}
