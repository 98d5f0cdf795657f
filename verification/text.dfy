/** Decimal numerals and blank strings, as the identifiers, tokens and checks use them. */
module Text {
  predicate IsDigit(c: char) {
    '0' <= c <= '9'
  }

  predicate AllDigits(s: string) {
    forall i :: 0 <= i < |s| ==> IsDigit(s[i])
  }

  function Digit(n: nat): (c: char)
    requires n < 10
    ensures IsDigit(c) && c as int - '0' as int == n
  {
    ('0' as int + n) as char
  }

  /** The numeral JavaScript prints for a non-negative integer. */
  function Decimal(n: nat): (s: string)
    ensures AllDigits(s) && |s| > 0
  {
    if n < 10 then [Digit(n)] else Decimal(n / 10) + [Digit(n % 10)]
  }

  /** The number a run of digits stands for. */
  function Value(s: string): nat
    requires AllDigits(s)
  {
    if s == [] then 0 else 10 * Value(s[..|s| - 1]) + (s[|s| - 1] as int - '0' as int)
  }

  lemma {:induction false} ValueOfDecimal(n: nat)
    ensures Value(Decimal(n)) == n
  {
    if n >= 10 {
      ValueOfDecimal(n / 10);
      var s := Decimal(n);
      assert s[..|s| - 1] == Decimal(n / 10);
    } else {
      assert Decimal(n)[..0] == [];
    }
  }

  lemma DecimalInjective(m: nat, n: nat)
    requires Decimal(m) == Decimal(n)
    ensures m == n
  {
    ValueOfDecimal(m);
    ValueOfDecimal(n);
  }

  /** What follows a numeral so that the numeral's end can be told. */
  predicate NoDigitAhead(s: string) {
    s == [] || !IsDigit(s[0])
  }

  /** Where the elements with a property end can be told, so a run of them and what follows split one way only. */
  lemma {:induction false} RunsSplit<T>(p: T -> bool, d: seq<T>, x: seq<T>, e: seq<T>, y: seq<T>)
    requires (forall i :: 0 <= i < |d| ==> p(d[i])) && (forall i :: 0 <= i < |e| ==> p(e[i]))
    requires (x == [] || !p(x[0])) && (y == [] || !p(y[0]))
    requires d + x == e + y
    ensures d == e && x == y
    decreases |d|
  {
    assert d == [] ==> d + x == x;
    assert e == [] ==> e + y == y;
    assert d != [] ==> (d + x)[0] == d[0];
    assert e != [] ==> (e + y)[0] == e[0];
    if d != [] && e != [] {
      assert (d + x)[1..] == d[1..] + x && (e + y)[1..] == e[1..] + y;
      RunsSplit(p, d[1..], x, e[1..], y);
      assert d == [d[0]] + d[1..] && e == [e[0]] + e[1..];
    }
  }

  lemma NumeralSplit(m: nat, x: string, n: nat, y: string)
    requires NoDigitAhead(x) && NoDigitAhead(y)
    requires Decimal(m) + x == Decimal(n) + y
    ensures m == n && x == y
  {
    RunsSplit(IsDigit, Decimal(m), x, Decimal(n), y);
    DecimalInjective(m, n);
  }

  lemma CancelPrefix(p: string, x: string, y: string)
    requires p + x == p + y
    ensures x == y
  {
    assert (p + x)[|p|..] == x;
    assert (p + y)[|p|..] == y;
  }

  lemma CancelSuffix(x: string, y: string, q: string)
    requires x + q == y + q
    ensures x == y
  {
    assert |x| == |y|;
    assert (x + q)[..|x|] == x;
    assert (y + q)[..|y|] == y;
  }

  /** The white space that `String.prototype.trim` removes. */
  predicate IsSpace(c: char) {
    || '\t' <= c <= '\r'
    || c in [' ', '\U{A0}', '\U{1680}', '\U{2028}', '\U{2029}', '\U{202F}', '\U{205F}', '\U{3000}', '\U{FEFF}']
    || '\U{2000}' <= c <= '\U{200A}'
  }

  /** Nothing is left of the string once it is trimmed. */
  predicate Blank(s: string) {
    forall i :: 0 <= i < |s| ==> IsSpace(s[i])
  }

  function TrimStart(s: string): string
    decreases s
  {
    if s != "" && IsSpace(s[0]) then TrimStart(s[1..]) else s
  }

  function TrimEnd(s: string): string
    decreases s
  {
    if s != "" && IsSpace(s[|s| - 1]) then TrimEnd(s[..|s| - 1]) else s
  }

  function Trim(s: string): string {
    TrimEnd(TrimStart(s))
  }

  lemma {:induction false} TrimStartBlank(s: string)
    ensures Blank(TrimStart(s)) <==> Blank(s)
    ensures TrimStart(s) != "" ==> !IsSpace(TrimStart(s)[0])
    decreases s
  {
    if s != "" && IsSpace(s[0]) {
      TrimStartBlank(s[1..]);
      assert forall i :: 0 < i < |s| ==> s[1..][i - 1] == s[i];
    }
  }

  lemma {:induction false} TrimEndBlank(s: string)
    ensures Blank(TrimEnd(s)) <==> Blank(s)
    ensures TrimEnd(s) <= s
    ensures TrimEnd(s) != "" ==> !IsSpace(TrimEnd(s)[|TrimEnd(s)| - 1])
    decreases s
  {
    if s != "" && IsSpace(s[|s| - 1]) {
      TrimEndBlank(s[..|s| - 1]);
    }
  }

  /** Trimming removes white space and nothing else: what is left is empty exactly when there was nothing else. */
  lemma TrimKeepsText(s: string)
    ensures Blank(Trim(s)) <==> Blank(s)
    ensures Trim(s) == "" <==> Blank(s)
    ensures Trim(s) != "" ==> !IsSpace(Trim(s)[0]) && !IsSpace(Trim(s)[|Trim(s)| - 1])
  {
    TrimStartBlank(s);
    TrimEndBlank(TrimStart(s));
  }

  /** A cut of the string with nothing but white space in front of it and behind it. */
  ghost predicate IsCore(t: string, s: string, i: nat, j: nat) {
    i <= j <= |s| && t == s[i..j] && Blank(s[..i]) && Blank(s[j..])
  }

  lemma {:induction false} TrimStartCuts(s: string) returns (i: nat)
    ensures IsCore(TrimStart(s), s, i, |s|)
    decreases s
  {
    i := 0;
    if s != "" && IsSpace(s[0]) {
      var k := TrimStartCuts(s[1..]);
      i := k + 1;
      assert s[..i] == [s[0]] + s[1..][..k];
    }
  }

  lemma {:induction false} TrimEndCuts(s: string) returns (j: nat)
    ensures IsCore(TrimEnd(s), s, 0, j)
    decreases s
  {
    j := |s|;
    if s != "" && IsSpace(s[|s| - 1]) {
      var n := |s| - 1;
      j := TrimEndCuts(s[..n]);
      assert s[j..] == s[..n][j..] + [s[n]];
    }
  }

  /** Trimming cuts white space off both ends and keeps what is between. */
  lemma TrimCuts(s: string)
    ensures exists i: nat, j: nat :: IsCore(Trim(s), s, i, j)
  {
    var t := TrimStart(s);
    var i := TrimStartCuts(s);
    var j := TrimEndCuts(t);
    assert s[i + j..] == t[j..] && s[i..i + j] == t[..j];
    assert IsCore(Trim(s), s, i, i + j);
  }
}
