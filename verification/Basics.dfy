/** Small vocabulary shared by the other modules: optional values, results, the
    text functions the source applies to identifiers, and decimal numerals. */
module Basics {

  datatype Option<+T> = None | Some(value: T)

  datatype Result<+T, +E> = Success(value: T) | Failure(error: E)

  /** Map lookup that answers `None` for a missing key. */
  function Get<K, V>(m: map<K, V>, k: K): Option<V> {
    if k in m then Some(m[k]) else None
  }

  // ---------------------------------------------------------------- trimming

  /** The code points with the Unicode White_Space property. */
  predicate IsSpace(c: char) {
    '\t' <= c <= '\r' || c == ' ' || c as int == 0x85 || c as int == 0xA0 || c as int == 0x1680
    || 0x2000 <= c as int <= 0x200A || c as int == 0x2028 || c as int == 0x2029
    || c as int == 0x202F || c as int == 0x205F || c as int == 0x3000
  }

  /** These are 25. */
  lemma SpacesExactly(c: char)
    ensures IsSpace(c) <==>
            c as int in {0x9, 0xA, 0xB, 0xC, 0xD, 0x20, 0x85, 0xA0, 0x1680,
                         0x2000, 0x2001, 0x2002, 0x2003, 0x2004, 0x2005, 0x2006, 0x2007, 0x2008, 0x2009, 0x200A,
                         0x2028, 0x2029, 0x202F, 0x205F, 0x3000}
  {
  }

  function TrimStart(s: string): string {
    if s != "" && IsSpace(s[0]) then TrimStart(s[1..]) else s
  }

  function TrimEnd(s: string): string {
    if s != "" && IsSpace(s[|s| - 1]) then TrimEnd(s[..|s| - 1]) else s
  }

  function Trim(s: string): string {
    TrimEnd(TrimStart(s))
  }

  /** Text that trims to nothing. */
  predicate Blank(s: string) {
    forall i :: 0 <= i < |s| ==> IsSpace(s[i])
  }

  lemma {:induction false} TrimStartExactly(s: string) returns (n: nat)
    ensures n <= |s| && TrimStart(s) == s[n..] && forall i :: 0 <= i < n ==> IsSpace(s[i])
    ensures n < |s| ==> !IsSpace(s[n])
  {
    n := 0;
    if s != "" && IsSpace(s[0]) {
      var rest := s[1..];
      n := TrimStartExactly(rest);
      assert forall i :: 1 <= i < |s| ==> s[i] == rest[i - 1];
      assert rest[n..] == s[n + 1..];
      n := n + 1;
    }
  }

  lemma {:induction false} TrimEndExactly(s: string) returns (n: nat)
    ensures n <= |s| && TrimEnd(s) == s[..n] && forall i :: n <= i < |s| ==> IsSpace(s[i])
    ensures n > 0 ==> !IsSpace(s[n - 1])
  {
    n := |s|;
    if s != "" && IsSpace(s[|s| - 1]) {
      var front := s[..|s| - 1];
      n := TrimEndExactly(front);
      assert forall i :: 0 <= i < |front| ==> s[i] == front[i];
      assert front[..n] == s[..n];
    }
  }

  /** Trimming takes white space off both ends, all of it and nothing else. */
  lemma TrimExactly(s: string) returns (m: nat, n: nat)
    ensures m <= n <= |s| && Trim(s) == s[m..n]
    ensures forall i :: 0 <= i < m || n <= i < |s| ==> IsSpace(s[i])
    ensures m < n ==> !IsSpace(s[m]) && !IsSpace(s[n - 1])
  {
    m := TrimStartExactly(s);
    var rest := s[m..];
    var k := TrimEndExactly(rest);
    n := m + k;
    assert forall i :: m <= i < |s| ==> s[i] == rest[i - m];
    assert rest[..k] == s[m..n];
  }

  // ---------------------------------------------------------------- numerals

  function Digit(d: nat): char
    requires d < 10
  {
    "0123456789"[d]
  }

  function Decimal(n: nat): (s: string)
    ensures s != "" && forall i :: 0 <= i < |s| ==> '0' <= s[i] <= '9'
  {
    if n < 10 then [Digit(n)] else Decimal(n / 10) + [Digit(n % 10)]
  }

  lemma {:induction false} DecimalInjective(m: nat, n: nat)
    requires Decimal(m) == Decimal(n)
    ensures m == n
    decreases m
  {
    var s, t := Decimal(m), Decimal(n);
    assert s[|s| - 1] == Digit(m % 10) && t[|t| - 1] == Digit(n % 10);
    assert m % 10 == n % 10;
    if m >= 10 && n >= 10 {
      assert s[..|s| - 1] == Decimal(m / 10) && t[..|t| - 1] == Decimal(n / 10);
      DecimalInjective(m / 10, n / 10);
    }
  }
}
