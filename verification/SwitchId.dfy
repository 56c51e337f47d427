/** Reading NIDs from sysfs and deriving switch ids from them. */
module SwitchId {
  import opened Basics
  import opened Numerals

  const UINT32: nat := 0x1_0000_0000
  const INVALID_NID: nat := 0xFFFF_FFFF
  const DEFAULT_MASK: nat := 0xf_ffc0

  // ----- parseNID

  /** unicode.IsSpace, which strings.TrimSpace uses. */
  predicate IsSpace(c: char) {
    || c == ' ' || '\t' <= c <= '\r' || c == '\U{85}' || c == '\U{A0}' || c == '\U{1680}'
    || '\U{2000}' <= c <= '\U{200A}' || c == '\U{2028}' || c == '\U{2029}' || c == '\U{202F}'
    || c == '\U{205F}' || c == '\U{3000}'
  }

  function TrimLeft(s: string): string {
    if s != "" && IsSpace(s[0]) then TrimLeft(s[1..]) else s
  }

  function TrimRight(s: string): string {
    if s != "" && IsSpace(s[|s| - 1]) then TrimRight(s[..|s| - 1]) else s
  }

  /** strconv.ParseUint for 32 bits: digits of the base only, and no more than fits. */
  function ParseUint32(s: string, b: nat): Option<nat>
    requires Base(b)
  {
    var v := Denotes(s, b);
    if v.Some? && v.value < UINT32 then v else None
  }

  function ParseNID(text: string): Option<nat> {
    var s := TrimRight(TrimLeft(text));
    if |s| >= 2 && s[0] == '0' && (s[1] == 'x' || s[1] == 'X') then ParseUint32(s[2..], 16)
    else ParseUint32(s, 10)
  }

  predicate AllSpace(s: string) { forall i :: 0 <= i < |s| ==> IsSpace(s[i]) }

  lemma {:induction false} TrimLeftSkips(a: string, s: string)
    requires AllSpace(a) && (s == "" || !IsSpace(s[0]))
    ensures TrimLeft(a + s) == s
  {
    if a == "" {
      assert a + s == s;
    } else {
      assert (a + s)[1..] == a[1..] + s;
      TrimLeftSkips(a[1..], s);
    }
  }

  lemma {:induction false} TrimRightSkips(s: string, b: string)
    requires AllSpace(b) && (s == "" || !IsSpace(s[|s| - 1]))
    ensures TrimRight(s + b) == s
  {
    if b == "" {
      assert s + b == s;
    } else {
      assert (s + b)[..|s + b| - 1] == s + b[..|b| - 1];
      TrimRightSkips(s, b[..|b| - 1]);
    }
  }

  lemma TrimSkips(a: string, s: string, b: string)
    requires AllSpace(a) && AllSpace(b) && s != "" && !IsSpace(s[0]) && !IsSpace(s[|s| - 1])
    ensures TrimRight(TrimLeft(a + s + b)) == s
  {
    assert a + s + b == a + (s + b);
    TrimLeftSkips(a, s + b);
    TrimRightSkips(s, b);
  }

  /** Any decimal spelling of a number, with any white space around it, is recovered if and only
      if the number fits 32 bits. */
  lemma DecimalNID(n: nat, digits: string, a: string, b: string)
    requires AllSpace(a) && AllSpace(b) && Denotes(digits, 10) == Some(n)
    ensures ParseNID(a + digits + b) == if n < UINT32 then Some(n) else None
  {
    DenotesDigits(digits, 10);
    DigitIsDecimal(digits[0]);
    DigitIsDecimal(digits[|digits| - 1]);
    if |digits| >= 2 { DigitIsDecimal(digits[1]); }
    TrimSkips(a, digits, b);
    hide TrimLeft, TrimRight, Denotes;
  }

  lemma DigitIsDecimal(c: char)
    requires DigitValue(c).Some? && DigitValue(c).value < 10
    ensures '0' <= c <= '9' && !IsSpace(c)
  {}

  /** Any hexadecimal spelling, in either case and with either prefix: the same. */
  lemma HexNID(n: nat, digits: string, a: string, b: string, upper: bool)
    requires AllSpace(a) && AllSpace(b) && Denotes(digits, 16) == Some(n)
    ensures ParseNID(a + ((if upper then "0X" else "0x") + digits) + b) == if n < UINT32 then Some(n) else None
  {
    var s := (if upper then "0X" else "0x") + digits;
    DenotesDigits(digits, 16);
    assert s[0] == '0' && s[|s| - 1] == digits[|digits| - 1] && s[2..] == digits;
    assert DigitValue(digits[|digits| - 1]).Some?;
    TrimSkips(a, s, b);
    hide TrimLeft, TrimRight, Denotes;
  }

  /** Every number has such spellings: the ones strconv writes. */
  lemma WrittenNID(n: nat, a: string, b: string)
    requires AllSpace(a) && AllSpace(b) && n < UINT32
    ensures ParseNID(a + Show(n, 10) + b) == Some(n) && ParseNID(a + ("0x" + Show(n, 16)) + b) == Some(n)
  {
    ShowDenotes(n, 10);
    ShowDenotes(n, 16);
    DecimalNID(n, Show(n, 10), a, b);
    HexNID(n, Show(n, 16), a, b, false);
    hide ParseNID, Show;
  }

  /** In particular as sysfs ends a line. */
  lemma LineNID(n: nat)
    requires n < UINT32
    ensures ParseNID(Show(n, 10) + "\n") == Some(n) && ParseNID("0x" + Show(n, 16) + "\n") == Some(n)
  {
    WrittenNID(n, "", "\n");
    assert "" + Show(n, 10) + "\n" == Show(n, 10) + "\n";
    assert "" + ("0x" + Show(n, 16)) + "\n" == "0x" + Show(n, 16) + "\n";
    hide ParseNID, Show;
  }

  predicate IsDecimal(s: string) { s != "" && forall i :: 0 <= i < |s| ==> '0' <= s[i] <= '9' }

  predicate IsHexadecimal(s: string) {
    s != "" && forall i :: 0 <= i < |s| ==> '0' <= s[i] <= '9' || 'a' <= s[i] <= 'f' || 'A' <= s[i] <= 'F'
  }

  /** The characters are all decimal, or all hexadecimal digits. */
  predicate AllDigits(s: string, b: nat) {
    forall i :: 0 <= i < |s| ==> '0' <= s[i] <= '9' || (b == 16 && ('a' <= s[i] <= 'f' || 'A' <= s[i] <= 'F'))
  }

  lemma DigitMeans(c: char, b: nat)
    requires Base(b)
    ensures DigitValue(c).Some? && DigitValue(c).value < b <==>
      '0' <= c <= '9' || (b == 16 && ('a' <= c <= 'f' || 'A' <= c <= 'F'))
  {}

  lemma {:induction false} DenotesIff(s: string, b: nat)
    requires Base(b)
    ensures Denotes(s, b).Some? <==> s != "" && AllDigits(s, b)
  {
    if s != "" {
      var front, last := s[..|s| - 1], s[|s| - 1];
      DigitMeans(last, b);
      hide DigitValue;
      if |s| > 1 { DenotesIff(front, b); }
      assert forall i :: 0 <= i < |front| ==> front[i] == s[i];
    }
  }

  lemma {:induction false} LeftTrimmed(s: string) returns (a: string)
    ensures AllSpace(a) && s == a + TrimLeft(s)
  {
    if s != "" && IsSpace(s[0]) {
      var b := LeftTrimmed(s[1..]);
      a := [s[0]] + b;
      hide IsSpace;
      assert s == [s[0]] + s[1..] == [s[0]] + (b + TrimLeft(s[1..]));
      hide TrimLeft;
    } else {
      a := "";
    }
  }

  lemma {:induction false} RightTrimmed(s: string) returns (b: string)
    ensures AllSpace(b) && s == TrimRight(s) + b
  {
    if s != "" && IsSpace(s[|s| - 1]) {
      var a := RightTrimmed(s[..|s| - 1]);
      b := a + [s[|s| - 1]];
      hide IsSpace;
      assert s == s[..|s| - 1] + [s[|s| - 1]] == (TrimRight(s[..|s| - 1]) + a) + [s[|s| - 1]];
      hide TrimRight;
    } else {
      b := "";
    }
  }

  /** The text is white space, a core, white space. */
  ghost predicate Around(text: string, core: string) { exists a, b :: AllSpace(a) && AllSpace(b) && text == a + core + b }

  /** Any other text is rejected: what is read has, between white space, either decimal digits or
      hexadecimal ones behind 0x or 0X, and nothing else, of a value that fits 32 bits. */
  lemma RejectedNID(text: string)
    requires ParseNID(text).Some?
    ensures ParseNID(text).value < 0x1_0000_0000
    ensures || (exists d :: IsDecimal(d) && Around(text, d))
            || (exists d :: IsHexadecimal(d) && (Around(text, "0x" + d) || Around(text, "0X" + d)))
  {
    var a := LeftTrimmed(text);
    var b := RightTrimmed(TrimLeft(text));
    var s := TrimRight(TrimLeft(text));
    assert text == a + s + b;
    assert Around(text, s);
    if |s| >= 2 && s[0] == '0' && (s[1] == 'x' || s[1] == 'X') {
      DenotesIff(s[2..], 16);
      assert s == (if s[1] == 'x' then "0x" else "0X") + s[2..];
      assert IsHexadecimal(s[2..]);
    } else {
      DenotesIff(s, 10);
      assert IsDecimal(s);
    }
    hide TrimLeft, TrimRight, Denotes, IsDecimal, IsHexadecimal;
  }

  // ----- SwitchID

  /** Go's & on unsigned integers. */
  function And(a: nat, b: nat): nat {
    if a == 0 then 0 else (a % 2) * (b % 2) + 2 * And(a / 2, b / 2)
  }

  function SwitchID(nid: nat, mask: nat): int {
    if nid == INVALID_NID then -1 else And(nid, mask)
  }

  /** Go's conversion to int32. */
  function ToInt32(x: int): int {
    if -0x8000_0000 <= x < 0x8000_0000 then x
    else (x + 0x8000_0000) % UINT32 - 0x8000_0000
  }

  predicate Bit(n: nat, k: nat) { n / Pow2(k) % 2 == 1 }

  /** Each bit of the result is set exactly if it is in both operands. */
  lemma {:induction false} AndBits(a: nat, b: nat, k: nat)
    ensures Bit(And(a, b), k) <==> Bit(a, k) && Bit(b, k)
    decreases k
  {
    AndHalf(a, b);
    if k == 0 {
      LowBit(And(a, b));
      LowBit(a);
      LowBit(b);
    } else {
      AndBits(a / 2, b / 2, k - 1);
      HalveFirst(And(a, b), k);
      HalveFirst(a, k);
      HalveFirst(b, k);
    }
    hide And, Bit;
  }

  lemma AndHalf(a: nat, b: nat)
    ensures And(a, b) / 2 == And(a / 2, b / 2)
    ensures And(a, b) % 2 == 1 <==> a % 2 == 1 && b % 2 == 1
  {
    var low := (a % 2) * (b % 2);
    assert low == 0 || low == 1;
    assert low == 1 <==> a % 2 == 1 && b % 2 == 1;
  }

  lemma LowBit(n: nat)
    ensures Bit(n, 0) <==> n % 2 == 1
  {
    assert Pow2(0) == 1;
  }

  lemma HalveFirst(n: nat, k: nat)
    requires k > 0
    ensures Bit(n, k) <==> Bit(n / 2, k - 1)
  {
    DivTwice(n, Pow2(k - 1));
  }

  lemma DivTwice(n: nat, p: nat)
    requires p > 0
    ensures n / (2 * p) == n / 2 / p
  {
    var q, r := n / 2 / p, n / 2 % p;
    assert n / 2 == q * p + r;
    assert n == (2 * p) * q + (2 * r + n % 2);
    assert 2 * r + n % 2 < 2 * p;
    DivUnique(n, 2 * p, q, 2 * r + n % 2);
  }

  lemma DivUnique(n: nat, m: nat, q: nat, r: nat)
    requires m > 0 && n == m * q + r && r < m
    ensures n / m == q
  {
    var p, t := n / m, n % m;
    assert m * p + t == m * q + r;
    if p < q { NextMultiple(m, p, q); }
    if q < p { NextMultiple(m, q, p); }
  }

  lemma NextMultiple(m: nat, p: nat, q: nat)
    requires p < q
    ensures m * p + m <= m * q
  {
    assert m * (p + 1) <= m * q;
  }

  lemma AndDouble(n: nat, m: nat)
    ensures And(n, 2 * m) == 2 * And(n / 2, m)
  {
    assert (2 * m) % 2 == 0 && (2 * m) / 2 == m;
  }

  lemma {:induction false} AndOnes(n: nat, ones: nat, k: nat)
    requires ones == Pow2(k) - 1 && n <= ones
    ensures And(n, ones) == n
    decreases k
  {
    if k == 0 {
    } else if n > 0 {
      assert ones % 2 == 1 && ones / 2 == Pow2(k - 1) - 1;
      assert n / 2 <= ones / 2;
      AndOnes(n / 2, ones / 2, k - 1);
    }
  }

  lemma {:induction false} AndBound(n: nat, m: nat)
    ensures And(n, m) <= m
  {
    if n != 0 {
      AndBound(n / 2, m / 2);
      assert (n % 2) * (m % 2) <= m % 2;
    }
  }

  /** The default mask keeps the bits above the lowest six of a 20-bit address; under any mask -1
      stands for the invalid NID, and for no other. */
  lemma DefaultSwitchID(nid: nat)
    requires nid < 0x10_0000
    ensures SwitchID(nid, DEFAULT_MASK) == 64 * (nid / 64)
    ensures forall any: nat, mask: nat :: SwitchID(any, mask) == -1 <==> any == 0xFFFF_FFFF
  {
    var n1, n2, n3, n4, n5 := nid / 2, nid / 4, nid / 8, nid / 16, nid / 32;
    AndDouble(nid, 0x7_ffe0);
    AndDouble(n1, 0x3_fff0);
    AndDouble(n2, 0x1_fff8);
    AndDouble(n3, 0xfffc);
    AndDouble(n4, 0x7ffe);
    AndDouble(n5, 0x3fff);
    assert n1 / 2 == n2 && n2 / 2 == n3 && n3 / 2 == n4 && n4 / 2 == n5 && n5 / 2 == nid / 64;
    assert Pow2(14) - 1 == 0x3fff by { Pow2Fourteen(); }
    AndOnes(nid / 64, 0x3fff, 14);
  }

  lemma Pow2Fourteen()
    ensures Pow2(14) == 0x4000
  {
    assert Pow2(4) == 16;
    assert Pow2(8) == 16 * Pow2(4);
    assert Pow2(12) == 16 * Pow2(8);
    assert Pow2(14) == 4 * Pow2(12);
  }

  /** Two fabric addresses get the same switch label exactly if they are on the same switch of 64. */
  lemma SameLabelSameSwitch(m: nat, n: nat)
    requires m < 0x10_0000 && n < 0x10_0000
    ensures Show(And(m, DEFAULT_MASK), 10) == Show(And(n, DEFAULT_MASK), 10) <==> m / 64 == n / 64
  {
    DefaultSwitchID(m);
    DefaultSwitchID(n);
    if Show(And(m, DEFAULT_MASK), 10) == Show(And(n, DEFAULT_MASK), 10) {
      ShowInjective(And(m, DEFAULT_MASK), And(n, DEFAULT_MASK), 10);
    }
  }

  lemma {:induction false} AndHighBit(m: nat, k: nat)
    requires Pow2(k) <= m < Pow2(k + 1)
    ensures And(Pow2(k), m) == Pow2(k)
  {
    if k > 0 {
      assert Pow2(k) % 2 == 0 && Pow2(k) / 2 == Pow2(k - 1);
      AndHighBit(m / 2, k - 1);
    } else {
      assert m == 1;
      assert And(0, 0) == 0;
    }
  }

  /** The agent's conversion of the switch id to int32 keeps it for every NID exactly if the
      configured mask is below 2^31; otherwise it wraps around, by a multiple of 2^32. */
  lemma Int32Lossless(mask: nat)
    requires mask < UINT32
    ensures forall x: int :: -0x8000_0000 <= ToInt32(x) < 0x8000_0000 && (x - ToInt32(x)) % 0x1_0000_0000 == 0
    ensures (forall nid: nat :: nid < UINT32 ==> ToInt32(SwitchID(nid, mask)) == SwitchID(nid, mask)) <==> mask < 0x8000_0000
  {
    if mask < 0x8000_0000 {
      forall nid: nat | nid < UINT32
        ensures ToInt32(SwitchID(nid, mask)) == SwitchID(nid, mask)
      {
        AndBound(nid, mask);
      }
    } else {
      Pow2ThirtyOne();
      AndHighBit(mask, 31);
      assert ToInt32(SwitchID(0x8000_0000, mask)) != SwitchID(0x8000_0000, mask);
    }
  }

  lemma Pow2ThirtyOne()
    ensures Pow2(31) == 0x8000_0000 && Pow2(32) == UINT32
  {
    Pow2Fourteen();
    assert Pow2(18) == 16 * Pow2(14);
    assert Pow2(22) == 16 * Pow2(18);
    assert Pow2(26) == 16 * Pow2(22);
    assert Pow2(30) == 16 * Pow2(26);
  }
}
