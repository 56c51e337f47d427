/** Positional numerals in base 10 and 16, as strconv writes and reads them. */
module Numerals {
  import opened Basics

  predicate Base(b: nat) { b == 10 || b == 16 }

  function DigitChar(d: nat): (c: char)
    requires d < 16
  {
    if d < 10 then '0' + d as char else 'a' + (d - 10) as char
  }

  /** The value of a digit in either case, or None. */
  function DigitValue(c: char): Option<nat> {
    if '0' <= c <= '9' then Some((c - '0') as nat)
    else if 'a' <= c <= 'f' then Some((c - 'a') as nat + 10)
    else if 'A' <= c <= 'F' then Some((c - 'A') as nat + 10)
    else None
  }

  /** strconv.Itoa and strconv.FormatUint. */
  function Show(n: nat, b: nat): (s: string)
    requires Base(b)
    ensures s != ""
  {
    if n < b then [DigitChar(n)] else Show(n / b, b) + [DigitChar(n % b)]
  }

  /** The number a digit string denotes, or None if it is no such string. */
  function Denotes(s: string, b: nat): Option<nat>
    requires Base(b)
  {
    if s == "" then None
    else
      var last := DigitValue(s[|s| - 1]);
      if last.None? || last.value >= b then None
      else if |s| == 1 then last
      else
        var front := Denotes(s[..|s| - 1], b);
        if front.None? then None else Some(front.value * b + last.value)
  }

  lemma DigitRoundTrip(d: nat)
    requires d < 16
    ensures DigitValue(DigitChar(d)) == Some(d)
  {}

  lemma {:induction false} ShowDenotes(n: nat, b: nat)
    requires Base(b)
    ensures Denotes(Show(n, b), b) == Some(n)
  {
    var s := Show(n, b);
    if n < b {
      DigitRoundTrip(n);
    } else {
      ShowDenotes(n / b, b);
      DigitRoundTrip(n % b);
      assert s[..|s| - 1] == Show(n / b, b);
      assert (n / b) * b + n % b == n;
    }
  }

  /** Equal numerals denote equal numbers. */
  lemma ShowInjective(m: nat, n: nat, b: nat)
    requires Base(b) && Show(m, b) == Show(n, b)
    ensures m == n
  {
    ShowDenotes(m, b);
    ShowDenotes(n, b);
  }

  lemma {:induction false} ShowDigits(n: nat, b: nat)
    requires Base(b)
    ensures forall i :: 0 <= i < |Show(n, b)| ==> DigitValue(Show(n, b)[i]).Some? && DigitValue(Show(n, b)[i]).value < b
    ensures b == 10 ==> forall i :: 0 <= i < |Show(n, b)| ==> '0' <= Show(n, b)[i] <= '9'
    ensures b == 10 && n > 0 ==> Show(n, b)[0] != '0'
    ensures b == 10 && n == 0 ==> Show(n, b) == "0"
  {
    if n < b {
      DigitRoundTrip(n);
    } else {
      ShowDigits(n / b, b);
      DigitRoundTrip(n % b);
    }
  }

  /** Only digits of the base denote anything. */
  lemma {:induction false} DenotesDigits(s: string, b: nat)
    requires Base(b) && Denotes(s, b).Some?
    ensures s != "" && forall i :: 0 <= i < |s| ==> DigitValue(s[i]).Some? && DigitValue(s[i]).value < b
  {
    if |s| > 1 {
      DenotesDigits(s[..|s| - 1], b);
    }
  }
}
