/** String helpers used by the services: JavaScript's `String.prototype.trim`
    and `toLowerCase` restricted to ASCII, and the decimal rendering of a
    natural number (`Number.prototype.toString`). */
module Text {

  /** The ASCII characters `String.prototype.trim` removes. */
  predicate IsSpace(c: char) {
    c == ' ' || c == '\t' || c == '\n' || c == '\r' || c == '\U{B}' || c == '\U{C}'
  }

  predicate AllSpace(s: string) {
    forall i :: 0 <= i < |s| ==> IsSpace(s[i])
  }

  /** `s` neither starts nor ends with white space. */
  predicate Trimmed(s: string) {
    s == [] || (!IsSpace(s[0]) && !IsSpace(s[|s| - 1]))
  }

  /** The number of white-space characters `s` starts with. */
  function Lead(s: string): (n: nat)
    ensures n <= |s| && AllSpace(s[..n])
    ensures n < |s| ==> !IsSpace(s[n])
  {
    if s != [] && IsSpace(s[0]) then
      var n := Lead(s[1..]) + 1;
      assert forall k :: 0 < k < n ==> s[..n][k] == s[1..][..n - 1][k - 1];
      n
    else 0
  }

  /** `r` is the part of `s` after its leading white space, followed in `s`
      only by white space. */
  predicate InnerPart(s: string, r: string) {
    Lead(s) + |r| <= |s| && r == s[Lead(s)..Lead(s) + |r|] && AllSpace(s[Lead(s) + |r|..])
  }

  /** Dropping a leading space keeps the inner part. */
  lemma InnerPartFront(s: string, r: string)
    requires s != [] && IsSpace(s[0]) && InnerPart(s[1..], r)
    ensures InnerPart(s, r)
  {
    var n := Lead(s[1..]);
    assert Lead(s) == n + 1;
    assert s[n + 1..n + 1 + |r|] == s[1..][n..n + |r|];
    assert s[n + 1 + |r|..] == s[1..][n + |r|..];
  }

  /** Dropping a trailing space from a string that starts with a non-space
      keeps the inner part. */
  lemma InnerPartBack(s: string, r: string)
    requires s != [] && !IsSpace(s[0]) && IsSpace(s[|s| - 1]) && InnerPart(s[..|s| - 1], r)
    ensures InnerPart(s, r)
  {
    var p := s[..|s| - 1];
    assert Lead(s) == 0;
    assert p != [] ==> p[0] == s[0];
    assert Lead(p) == 0;
    assert s[..|r|] == p[..|r|];
    var q := s[|r|..];
    assert q == p[|r|..] + [s[|s| - 1]];
    forall k | 0 <= k < |q| ensures IsSpace(q[k]) {
      if k < |q| - 1 { assert q[k] == p[|r|..][k]; }
    }
  }

  /** `String.prototype.trim`: the slice of the input after its leading
      white space and before its trailing white space, so that the result
      starts and ends with a non-space character; it is empty exactly when
      `s` is blank. */
  function Trim(s: string): (r: string)
    ensures InnerPart(s, r)
    ensures Trimmed(r)
    ensures |r| <= |s|
    ensures r == [] <==> AllSpace(s)
    decreases |s|
  {
    if s != [] && IsSpace(s[0]) then
      assert AllSpace(s) <==> AllSpace(s[1..]) by {
        if AllSpace(s[1..]) {
          forall i | 0 <= i < |s| ensures IsSpace(s[i]) { if i > 0 { assert s[i] == s[1..][i - 1]; } }
        }
      }
      InnerPartFront(s, Trim(s[1..]));
      Trim(s[1..])
    else if s != [] && IsSpace(s[|s| - 1]) then
      // s[0] is not white space, so neither s nor s without its last character is blank
      assert s[..|s| - 1][0] == s[0];
      InnerPartBack(s, Trim(s[..|s| - 1]));
      Trim(s[..|s| - 1])
    else
      assert s[0..|s|] == s && s[|s|..] == [];
      s
  }

  /** Trimming a string that is already trimmed changes nothing. */
  lemma TrimOfTrimmed(s: string)
    requires Trimmed(s)
    ensures Trim(s) == s
  {
  }

  /** The lower-case form of an ASCII letter; other characters are kept. */
  function LowerChar(c: char): (d: char)
    ensures !('A' <= d <= 'Z')
    ensures 'A' <= c <= 'Z' ==> 'a' <= d <= 'z' && d as int - c as int == 'a' as int - 'A' as int
    ensures !('A' <= c <= 'Z') ==> d == c
  {
    if 'A' <= c <= 'Z' then (c as int + 32) as char else c
  }

  /** No character of `s` is an upper-case ASCII letter. */
  predicate NoUpper(s: string)
    decreases |s|
  {
    s == [] || (!('A' <= s[0] <= 'Z') && NoUpper(s[1..]))
  }

  /** A string with no upper-case letter has none at any position. */
  lemma {:induction false} NoUpperAt(s: string)
    requires NoUpper(s)
    ensures forall i :: 0 <= i < |s| ==> !('A' <= s[i] <= 'Z')
    decreases |s|
  {
    if s != [] {
      NoUpperAt(s[1..]);
      forall i | 0 < i < |s| ensures !('A' <= s[i] <= 'Z') {
        assert s[i] == s[1..][i - 1];
      }
    }
  }

  /** `String.prototype.toLowerCase` on ASCII letters. */
  function ToLower(s: string): (r: string)
    ensures |r| == |s|
    ensures NoUpper(r)
    ensures forall i :: 0 <= i < |s| ==> r[i] == LowerChar(s[i])
  {
    if s == [] then [] else [LowerChar(s[0])] + ToLower(s[1..])
  }

  /** Lower-casing is idempotent and leaves white space where it was. */
  lemma LowerPreserves(s: string)
    ensures ToLower(ToLower(s)) == ToLower(s)
    ensures forall i :: 0 <= i < |s| ==> (IsSpace(ToLower(s)[i]) <==> IsSpace(s[i]))
  {
  }

  /** Decimal rendering of a natural number, most significant digit first. */
  function Decimal(n: nat): (r: string)
    ensures |r| >= 1
    ensures forall i :: 0 <= i < |r| ==> '0' <= r[i] <= '9'
    ensures n >= 10 ==> r[0] != '0'
  {
    if n < 10 then [('0' as int + n) as char] else Decimal(n / 10) + [('0' as int + n % 10) as char]
  }

  /** Reads back a string of decimal digits. */
  function DigitsValue(s: string): nat
    requires forall i :: 0 <= i < |s| ==> '0' <= s[i] <= '9'
  {
    if s == [] then 0 else DigitsValue(s[..|s| - 1]) * 10 + (s[|s| - 1] as int - '0' as int)
  }

  /** Rendering a number and reading it back gives the number. */
  lemma {:induction false} DecimalRoundTrip(n: nat)
    ensures DigitsValue(Decimal(n)) == n
  {
    if n >= 10 {
      var r := Decimal(n);
      assert r[..|r| - 1] == Decimal(n / 10);
      DecimalRoundTrip(n / 10);
    }
  }

  /** One more digit for every factor of ten. */
  lemma DecimalStep(n: nat)
    requires n >= 10
    ensures |Decimal(n)| == |Decimal(n / 10)| + 1
  {
  }

  /** The numbers 100000..999999 are rendered with exactly six digits. */
  lemma {:induction false} DecimalSixDigits(n: nat)
    requires 100000 <= n <= 999999
    ensures |Decimal(n)| == 6
  {
    var n1: nat := n / 10;
    assert 10000 <= n1 <= 99999;
    var n2: nat := n1 / 10;
    assert 1000 <= n2 <= 9999;
    var n3: nat := n2 / 10;
    assert 100 <= n3 <= 999;
    var n4: nat := n3 / 10;
    assert 10 <= n4 <= 99;
    var n5: nat := n4 / 10;
    assert 1 <= n5 <= 9;
    DecimalStep(n);
    DecimalStep(n1);
    DecimalStep(n2);
    DecimalStep(n3);
    DecimalStep(n4);
  }
}
