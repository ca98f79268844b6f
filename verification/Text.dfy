/** Byte text: decimal numbers, white space at the ends of a span, and finding a
    byte. Shared by the codecs. */
module Text {
  import opened Amneziawg

  // ------------------------------------------------------------------------
  // Decimal numbers
  // ------------------------------------------------------------------------

  predicate AllDigits(s: string) {
    forall i | 0 <= i < |s| :: IsDigit(s[i])
  }

  function DigitValue(c: char): (d: nat)
    requires IsDigit(c)
    ensures d <= 9
  {
    c as int - '0' as int
  }

  function DecimalValue(s: string): nat
    requires AllDigits(s)
  {
    if s == [] then 0 else 10 * DecimalValue(s[..|s| - 1]) + DigitValue(s[|s| - 1])
  }

  /** Canonical decimal text, as printf renders an unsigned number. */
  function Decimal(n: nat): (s: string)
    ensures s != [] && AllDigits(s)
  {
    var digit := ('0' as int + n % 10) as char;
    if n < 10 then [digit] else Decimal(n / 10) + [digit]
  }

  predicate CanonicalDecimal(s: string) {
    s != [] && AllDigits(s) && (s[0] == '0' ==> |s| == 1)
  }

  lemma {:induction false} DecimalCanonical(n: nat)
    ensures CanonicalDecimal(Decimal(n)) && DecimalValue(Decimal(n)) == n
    ensures n > 0 ==> Decimal(n)[0] != '0'
  {
    if n >= 10 {
      DecimalCanonical(n / 10);
      var s := Decimal(n);
      assert s[..|s| - 1] == Decimal(n / 10);
    }
  }

  lemma {:induction false} CanonicalDecimalUnique(s: string)
    requires CanonicalDecimal(s)
    ensures Decimal(DecimalValue(s)) == s
    ensures s[0] != '0' ==> DecimalValue(s) > 0
  {
    if |s| > 1 {
      var prefix := s[..|s| - 1];
      assert prefix[0] == s[0];
      CanonicalDecimalUnique(prefix);
      assert DecimalValue(s) / 10 == DecimalValue(prefix);
      assert s == prefix + [s[|s| - 1]];
    }
  }

  lemma {:induction false} DecimalLength(n: nat, digits: nat, bound: nat)
    requires digits > 0 && n < bound && bound == Power10(digits)
    ensures |Decimal(n)| <= digits
  {
    if n >= 10 {
      assert digits > 1 && bound == 10 * Power10(digits - 1) by {
        assert Power10(0) == 1;
      }
      TenthBelow(n, Power10(digits - 1));
      DecimalLength(n / 10, digits - 1, Power10(digits - 1));
      assert |Decimal(n)| == |Decimal(n / 10)| + 1;
    }
  }

  lemma TenthBelow(n: nat, m: nat)
    requires n < 10 * m
    ensures n / 10 < m
  {
  }

  function Power10(k: nat): (p: nat)
    ensures p > 0
  {
    if k == 0 then 1 else 10 * Power10(k - 1)
  }

  lemma {:induction false} DecimalValueMonotone(s: string, i: nat)
    requires AllDigits(s) && i <= |s|
    ensures DecimalValue(s[..i]) <= DecimalValue(s)
  {
    if i < |s| {
      assert s[..|s| - 1][..i] == s[..i];
      DecimalValueMonotone(s[..|s| - 1], i);
    } else {
      assert s[..i] == s;
    }
  }

  lemma DecimalSnoc(s: string, i: nat)
    requires i < |s| && AllDigits(s[..i]) && IsDigit(s[i])
    ensures AllDigits(s[..i + 1]) && DecimalValue(s[..i + 1]) == 10 * DecimalValue(s[..i]) + DigitValue(s[i])
  {
    assert s[..i + 1][..i] == s[..i];
  }

  // ------------------------------------------------------------------------
  // Spans
  // ------------------------------------------------------------------------

  function TrimLeft(s: string): string {
    if s != [] && IsSpace(s[0]) then TrimLeft(s[1..]) else s
  }

  function TrimRight(s: string): string {
    if s != [] && IsSpace(s[|s| - 1]) then TrimRight(s[..|s| - 1]) else s
  }

  lemma {:induction false} TrimLeftShape(s: string)
    ensures var t := TrimLeft(s);
            && |t| <= |s| && t == s[|s| - |t|..] && (t == [] || !IsSpace(t[0]))
            && forall i | 0 <= i < |s| - |t| :: IsSpace(s[i])
  {
    if s != [] && IsSpace(s[0]) {
      TrimLeftShape(s[1..]);
      assert forall i | 1 <= i < |s| :: s[i] == s[1..][i - 1];
    }
  }

  lemma {:induction false} TrimRightShape(s: string)
    ensures var t := TrimRight(s);
            && t <= s && (t == [] || !IsSpace(t[|t| - 1]))
            && forall i | |t| <= i < |s| :: IsSpace(s[i])
  {
    if s != [] && IsSpace(s[|s| - 1]) {
      TrimRightShape(s[..|s| - 1]);
    }
  }

  function Trim(s: string): string {
    TrimRight(TrimLeft(s))
  }

  /** Moves both ends of a span inwards over white space. */
  method TrimSpan(data: string) returns (start: nat, end: nat)
    ensures start <= end <= |data| && data[start..end] == Trim(data)
  {
    start := 0;
    while start < |data| && IsSpace(data[start])
      invariant start <= |data| && TrimLeft(data) == TrimLeft(data[start..])
    {
      assert data[start..][1..] == data[start + 1..];
      start := start + 1;
    }
    end := TrimEnd(data, start);
  }

  method TrimEnd(data: string, start: nat) returns (end: nat)
    requires start <= |data|
    ensures start <= end <= |data| && data[start..end] == TrimRight(data[start..])
  {
    end := |data|;
    assert data[start..end] == data[start..];
    while end > start && IsSpace(data[end - 1])
      invariant start <= end <= |data| && TrimRight(data[start..]) == TrimRight(data[start..end])
    {
      assert data[start..end][..end - start - 1] == data[start..end - 1];
      end := end - 1;
    }
  }

  /** Where a byte first occurs. */
  function IndexOf(s: string, c: char): (n: nat)
    requires c in s
    ensures n < |s| && s[n] == c && c !in s[..n]
  {
    if s[0] == c then 0 else
      var n := IndexOf(s[1..], c) + 1;
      assert s[..n] == [s[0]] + s[1..][..n - 1];
      n
  }

  /** The same as an option: `memchr`. */
  function Find(s: string, c: char): (r: Option<nat>)
    ensures r.Some? ==> r.value < |s| && s[r.value] == c
  {
    if s == [] then None
    else if s[0] == c then Some(0)
    else
      var rest := Find(s[1..], c);
      if rest.Some? then Some(rest.value + 1) else None
  }

  /** It finds the first one, and misses none. */
  lemma {:induction false} FindFirst(s: string, c: char)
    ensures Find(s, c).Some? ==> forall i | 0 <= i < Find(s, c).value :: s[i] != c
    ensures Find(s, c).None? ==> forall i | 0 <= i < |s| :: s[i] != c
  {
    if s != [] {
      FindFirst(s[1..], c);
      assert forall i | 1 <= i < |s| :: s[i] == s[1..][i - 1];
    }
  }

  lemma {:induction false} FoundAt(s: string, c: char, n: nat)
    requires n < |s| && s[n] == c && forall i | 0 <= i < n :: s[i] != c
    ensures Find(s, c) == Some(n)
  {
    if n > 0 {
      FoundAt(s[1..], c, n - 1);
    }
  }

  lemma {:induction false} NotFound(s: string, c: char)
    requires forall i | 0 <= i < |s| :: s[i] != c
    ensures Find(s, c).None?
  {
    if s != [] {
      NotFound(s[1..], c);
    }
  }

  method FindByte(s: string, c: char) returns (r: Option<nat>)
    ensures r == Find(s, c)
  {
    for i := 0 to |s|
      invariant forall k | 0 <= k < i :: s[k] != c
    {
      if s[i] == c {
        FoundAt(s, c, i);
        return Some(i);
      }
    }
    NotFound(s, c);
    return None;
  }
}
