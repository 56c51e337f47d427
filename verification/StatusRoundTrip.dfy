/** What the supervisor writes is what the exporter reads. */
module StatusRoundTrip {
  import opened Basics
  import opened Numerals
  import opened Json
  import opened StatusText
  import RestartCounter

  // ----- white space and names

  lemma SpaceSkipped(c: char, s: string)
    requires IsSpace(c)
    ensures SkipSpace([c] + s) == SkipSpace(s)
    ensures ParseValue([c] + s) == ParseValue(s)
    ensures ParseItems([c] + s) == ParseItems(s)
    ensures ParseMembers([c] + s) == ParseMembers(s)
  {
    assert ([c] + s)[1..] == s;
  }

  predicate Gap(s: string) { forall i :: 0 <= i < |s| ==> IsSpace(s[i]) }

  lemma {:induction false} GapSkipped(gap: string, s: string)
    requires Gap(gap)
    ensures SkipSpace(gap + s) == SkipSpace(s)
    ensures ParseValue(gap + s) == ParseValue(s)
    ensures ParseItems(gap + s) == ParseItems(s)
    ensures ParseMembers(gap + s) == ParseMembers(s)
  {
    hide SkipSpace, ParseValue, ParseItems, ParseMembers;
    if gap == "" {
      assert gap + s == s;
    } else {
      assert Gap(gap[1..]) && IsSpace(gap[0]);
      hide Gap, IsSpace;
      GapSkipped(gap[1..], s);
      SpaceSkipped(gap[0], gap[1..] + s);
      assert gap + s == [gap[0]] + (gap[1..] + s);
    }
  }

  lemma NothingSkipped(c: char, s: string)
    requires !IsSpace(c)
    ensures SkipSpace([c] + s) == [c] + s
    ensures Next([c] + s, c) && After([c] + s) == s
    ensures forall d :: Next([c] + s, d) ==> d == c
  {
    assert ([c] + s)[1..] == s;
  }

  /** JSON has an escape for the character, or needs none, where %q writes it the same way. */
  predicate Spellable(prints: char -> bool, c: char) {
    || ' ' <= c <= '~' || 8 <= c as nat <= 10 || 12 <= c as nat <= 13
    || 0x80 <= c as nat < 0x10000 || (c as nat >= 0x10000 && prints(c))
  }

  predicate Readable(prints: char -> bool, s: string) { forall i :: 0 <= i < |s| ==> Spellable(prints, s[i]) }

  function Prepend(c: char, r: Option<(string, string)>): Option<(string, string)> {
    if r.None? then None else Some(([c] + r.value.0, r.value.1))
  }

  /** One more digit at the end. */
  lemma DenotesMore(front: string, n: nat, d: nat)
    requires front != "" && Denotes(front, 16) == Some(n) && d < 16
    ensures Denotes(front + [DigitChar(d)], 16) == Some(n * 16 + d)
  {
    DigitRoundTrip(d);
    var s := front + [DigitChar(d)];
    hide DigitChar, DigitValue;
    assert s[..|s| - 1] == front;
  }

  lemma Hex4Denotes(n: nat)
    requires n < 0x10000
    ensures |Hex4(n)| == 4 && Denotes(Hex4(n), 16) == Some(n)
  {
    var a, b, c, d := n / 0x1000, n / 0x100 % 16, n / 16 % 16, n % 16;
    DigitRoundTrip(a);
    assert Denotes([DigitChar(a)], 16) == Some(a);
    hide DigitChar, Denotes;
    DenotesMore([DigitChar(a)], a, b);
    DenotesMore([DigitChar(a)] + [DigitChar(b)], a * 16 + b, c);
    DenotesMore([DigitChar(a)] + [DigitChar(b)] + [DigitChar(c)], (a * 16 + b) * 16 + c, d);
    HexParts(n);
    assert Hex4(n) == [DigitChar(a)] + [DigitChar(b)] + [DigitChar(c)] + [DigitChar(d)];
  }

  lemma HexParts(n: nat)
    ensures ((n / 0x1000 * 16 + n / 0x100 % 16) * 16 + n / 16 % 16) * 16 + n % 16 == n
  {
    var m := n / 16;
    assert m / 16 == n / 0x100 && m / 0x100 == n / 0x1000;
    assert n / 0x1000 * 16 + n / 0x100 % 16 == n / 0x100;
    assert n / 0x100 * 16 + m % 16 == m;
  }

  /** A \u escape of one unit stands for its character. */
  lemma UnitReads(c: char, s: string)
    requires c as nat < 0x10000
    ensures ParseString("\\u" + Hex4(c as nat) + s) == Prepend(c, ParseString(s))
  {
    var h := Hex4(c as nat);
    Hex4Denotes(c as nat);
    hide Hex4, Denotes;
    var t := "\\u" + h + s;
    assert t[1..] == ['u'] + (h + s) && t[1..][1..] == h + s;
    assert (h + s)[..4] == h && (h + s)[4..] == s;
    assert ParseUnits(h + s) == Some((c, s));
    assert ParseEscape(t[1..]) == Some((c, s));
    hide ParseEscape, ParseUnits;
  }

  lemma CharReads(prints: char -> bool, c: char, s: string)
    ensures ParseString(QuoteChar(prints, c) + s) == if Spellable(prints, c) then Prepend(c, ParseString(s)) else None
  {
    hide Hex4, ParseUnits;
    var q := QuoteChar(prints, c);
    var t := q + s;
    if 0x80 <= c as nat < 0x10000 && !prints(c) {
      UnitReads(c, s);
    } else if q == [c] {
      assert t[1..] == s;
    } else {
      assert t[0] == '\\' && t[1] == q[1];
      assert |q| == 2 ==> t[1..][1..] == s;
      assert t[1..][0] == q[1];
    }
  }

  lemma ReadableSplit(prints: char -> bool, s: string)
    requires s != ""
    ensures Readable(prints, s) <==> Spellable(prints, s[0]) && Readable(prints, s[1..])
  {
    assert forall i :: 0 < i < |s| ==> s[i] == s[1..][i - 1];
  }

  lemma QuotedStep(prints: char -> bool, s: string, end: string)
    requires s != ""
    ensures ParseString(QuoteBody(prints, s) + end) ==
      if Spellable(prints, s[0]) then Prepend(s[0], ParseString(QuoteBody(prints, s[1..]) + end)) else None
  {
    hide ParseString, QuoteChar;
    CharReads(prints, s[0], QuoteBody(prints, s[1..]) + end);
    assert QuoteBody(prints, s) + end == QuoteChar(prints, s[0]) + (QuoteBody(prints, s[1..]) + end);
  }

  lemma {:induction false} QuotedReads(prints: char -> bool, s: string, rest: string)
    ensures ParseString(QuoteBody(prints, s) + ("\"" + rest)) == if Readable(prints, s) then Some((s, rest)) else None
  {
    var end := "\"" + rest;
    if s == "" {
      assert QuoteBody(prints, s) + end == end;
      assert end[1..] == rest;
    } else {
      QuotedReads(prints, s[1..], rest);
      QuotedStep(prints, s, end);
      ReadableSplit(prints, s);
      assert s == [s[0]] + s[1..];
      hide ParseString, QuoteBody, Readable, Spellable;
    }
  }

  lemma QuoteReads(prints: char -> bool, s: string, rest: string)
    ensures ParseValue(Quote(prints, s) + rest) == if Readable(prints, s) then Some((String(s), rest)) else None
  {
    QuotedReads(prints, s, rest);
    assert Quote(prints, s) + rest == ['"'] + (QuoteBody(prints, s) + ("\"" + rest));
    NothingSkipped('"', QuoteBody(prints, s) + ("\"" + rest));
  }

  // ----- numbers and truth values

  predicate Digits(s: string) { forall i :: 0 <= i < |s| ==> IsDigit(s[i]) }

  lemma {:induction false} DigitsSpan(s: string, rest: string)
    requires Digits(s) && rest != "" && !InNumber(rest[0])
    ensures NumberSpan(s + rest) == |s| && DigitSpan(s) == |s|
  {
    if s == "" {
      assert s + rest == rest;
    } else {
      DigitsSpan(s[1..], rest);
      assert (s + rest)[1..] == s[1..] + rest;
    }
  }

  /** A text that ends a value: neither space nor part of a number. */
  predicate Stops(rest: string) { rest != "" && !InNumber(rest[0]) }

  lemma NumberReads(n: nat, rest: string)
    requires Stops(rest)
    ensures ParseValue(Show(n, 10) + rest) == Some((Number(Show(n, 10)), rest))
  {
    var s := Show(n, 10);
    ShowDigits(n, 10);
    DigitsSpan(s, rest);
    var t := s + rest;
    assert t[..|s|] == s && t[|s|..] == rest && s[|s|..] == "";
    assert t[0] == s[0] && IsDigit(t[0]);
    assert IsNumber(s);
    hide Show;
  }

  lemma IntReads(n: Count)
    ensures ReadInt(Number(Show(n, 10))) == Some(n)
  {
    ShowDigits(n, 10);
    ShowDenotes(n, 10);
    hide Show, Denotes;
  }

  lemma BoolReads(b: bool, rest: string)
    ensures ParseValue(ShowBool(b) + rest) == Some((Bool(b), rest))
  {
    var t := ShowBool(b) + rest;
    NothingSkipped(t[0], t[1..]);
    assert t == [t[0]] + t[1..];
    if b { assert t[4..] == rest; } else { assert t[5..] == rest && t[0] == 'f'; }
  }

  // ----- members

  predicate Plain(s: string) { forall i :: 0 <= i < |s| ==> ' ' <= s[i] <= '~' && s[i] != '"' && s[i] != '\\' }

  lemma {:induction false} PlainReads(s: string, rest: string)
    requires Plain(s)
    ensures ParseString(s + ("\"" + rest)) == Some((s, rest))
  {
    var end := "\"" + rest;
    if s == "" {
      assert "" + end == end;
      assert end[1..] == rest;
    } else {
      PlainReads(s[1..], rest);
      assert (s + end)[1..] == s[1..] + end;
      assert s == [s[0]] + s[1..];
    }
  }

  function Member(key: string, text: string, more: string): string { "\"" + key + "\": " + (text + more) }

  lemma MemberHead(key: string, text: string, more: string)
    requires Plain(key)
    ensures var m := Member(key, text, more);
      && Next(m, '"') && ParseString(After(m)) == Some((key, ": " + (text + more)))
  {
    var x := text + more;
    PlainReads(key, ": " + x);
    NothingSkipped('"', key + ("\"" + (": " + x)));
    assert Member(key, text, more) == ['"'] + (key + ("\"" + (": " + x)));
  }

  lemma ColonSkipped(x: string)
    ensures Next(": " + x, ':') && ParseValue(After(": " + x)) == ParseValue(x)
  {
    NothingSkipped(':', " " + x);
    SpaceSkipped(' ', x);
    assert ": " + x == [':'] + (" " + x);
  }

  /** A member whose value cannot be read spoils the object. */
  lemma MemberFails(key: string, text: string, more: string)
    requires Plain(key) && ParseValue(text + more).None?
    ensures ParseMembers(Member(key, text, more)).None?
  {
    MemberHead(key, text, more);
    ColonSkipped(text + more);
    hide ParseValue, ParseString, Member, SkipSpace, Next, After;
  }

  /** `gap` is the white space after the comma. */
  lemma MemberGoesOn(key: string, text: string, v: Value, gap: string, next: string)
    requires Plain(key) && Gap(gap) && ParseValue(text + ("," + (gap + next))) == Some((v, "," + (gap + next)))
    ensures var others := ParseMembers(next);
      ParseMembers(Member(key, text, "," + (gap + next))) ==
      if others.None? then None else Some(([(key, v)] + others.value.0, others.value.1))
  {
    var more := "," + (gap + next);
    MemberHead(key, text, more);
    ColonSkipped(text + more);
    NothingSkipped(',', gap + next);
    GapSkipped(gap, next);
    assert more == [','] + (gap + next);
    hide ParseValue, ParseString, Member, SkipSpace, Next, After, Gap;
  }

  /** `gap` is the white space before the closing brace. */
  lemma MemberEnds(key: string, text: string, v: Value, gap: string, rest: string)
    requires Plain(key) && Gap(gap)
    requires ParseValue(text + (gap + ("}" + rest))) == Some((v, gap + ("}" + rest)))
    ensures ParseMembers(Member(key, text, gap + ("}" + rest))) == Some(([(key, v)], rest))
  {
    var more := gap + ("}" + rest);
    MemberHead(key, text, more);
    ColonSkipped(text + more);
    NothingSkipped('}', rest);
    assert ['}'] + rest == "}" + rest;
    GapSkipped(gap, "}" + rest);
    assert Next(more, '}') && After(more) == rest;
    hide ParseValue, ParseString, Member, SkipSpace, Next, After, Gap;
  }

  /** The value an entry stands for. */
  function EntryValue(st: HandlerStatus): Value {
    Object([("device", String(st.device)), ("running", Bool(st.running)),
            ("pid", Number(Show(st.pid, 10))), ("restarts", Number(Show(st.restarts, 10)))])
  }

  lemma EntryForm(a: string, b: string, c: string, d: string, rest: string)
    ensures "{" + a + "," + (" " + b) + ", " + c + ", " + d + "}" + rest
      == "{" + (a + ("," + (" " + (b + ("," + (" " + (c + ("," + (" " + (d + ("" + ("}" + rest))))))))))))
  {
    var z := "}" + rest;
    assert "" + z == z;
    assert "{" + a + "," + (" " + b) + ", " + c + ", " + d + "}" + rest == "{" + a + "," + (" " + b) + ", " + c + ", " + (d + z);
    var y := "," + (" " + (c + ("," + (" " + (d + z)))));
    assert "{" + a + "," + (" " + b) + ", " + c + ", " + (d + z) == "{" + a + "," + (" " + b) + y;
    assert "{" + a + "," + (" " + b) + y == "{" + (a + ("," + (" " + (b + y))));
  }

  lemma PairForm(key: string, text: string, more: string)
    ensures Pair(key, text) + more == Member(key, text, more)
  {}

  lemma PairsRead(prints: char -> bool, st: HandlerStatus, more: string, rest: string)
    requires Readable(prints, st.device) && more == "" + ("}" + rest)
    ensures var r := Member("restarts", Show(st.restarts, 10), more);
      var p := Member("pid", Show(st.pid, 10), "," + (" " + r));
      var b := Member("running", ShowBool(st.running), "," + (" " + p));
      ParseMembers(Member("device", Quote(prints, st.device), "," + (" " + b))) == Some((EntryValue(st).members, rest))
  {
    hide Quote, Show, ShowBool, Member, Entry, ParseValue, ParseMembers, Readable;
    var r := Member("restarts", Show(st.restarts, 10), more);
    var p := Member("pid", Show(st.pid, 10), "," + (" " + r));
    var b := Member("running", ShowBool(st.running), "," + (" " + p));
    QuoteReads(prints, st.device, "," + (" " + b));
    BoolReads(st.running, "," + (" " + p));
    NumberReads(st.pid, "," + (" " + r));
    NumberReads(st.restarts, more);
    MemberEnds("restarts", Show(st.restarts, 10), Number(Show(st.restarts, 10)), "", rest);
    MemberGoesOn("pid", Show(st.pid, 10), Number(Show(st.pid, 10)), " ", r);
    MemberGoesOn("running", ShowBool(st.running), Bool(st.running), " ", p);
    MemberGoesOn("device", Quote(prints, st.device), String(st.device), " ", b);
    var tail := [("pid", Number(Show(st.pid, 10)))] + [("restarts", Number(Show(st.restarts, 10)))];
    assert [("device", String(st.device))] + ([("running", Bool(st.running))] + tail) == EntryValue(st).members;
  }

  lemma EntryShape(prints: char -> bool, st: HandlerStatus, rest: string)
    ensures var r := Member("restarts", Show(st.restarts, 10), "" + ("}" + rest));
      var p := Member("pid", Show(st.pid, 10), "," + (" " + r));
      var b := Member("running", ShowBool(st.running), "," + (" " + p));
      Entry(prints, st) + rest == "{" + Member("device", Quote(prints, st.device), "," + (" " + b))
  {
    hide Show, ShowBool, Quote, Member;
    var r := Member("restarts", Show(st.restarts, 10), "" + ("}" + rest));
    var p := Member("pid", Show(st.pid, 10), "," + (" " + r));
    var b := Member("running", ShowBool(st.running), "," + (" " + p));
    PairForm("restarts", Show(st.restarts, 10), "" + ("}" + rest));
    PairForm("pid", Show(st.pid, 10), "," + (" " + r));
    PairForm("running", ShowBool(st.running), "," + (" " + p));
    PairForm("device", Quote(prints, st.device), "," + (" " + b));
    EntryForm(Pair("device", Quote(prints, st.device)), Pair("running", ShowBool(st.running)),
              Pair("pid", Show(st.pid, 10)), Pair("restarts", Show(st.restarts, 10)), rest);
    hide Pair;
  }

  lemma MemberQuoted(key: string, text: string, more: string)
    ensures Member(key, text, more) != "" && Member(key, text, more)[0] == '"'
  {}

  /** An entry is read as its value, or not at all when its device name is not readable. */
  lemma EntryReads(prints: char -> bool, st: HandlerStatus, rest: string)
    ensures ParseValue(Entry(prints, st) + rest) == if Readable(prints, st.device) then Some((EntryValue(st), rest)) else None
  {
    hide Quote, Show, ShowBool, Entry, ParseValue, ParseMembers, Readable, Member;
    var more := "" + ("}" + rest);
    var r := Member("restarts", Show(st.restarts, 10), more);
    var p := Member("pid", Show(st.pid, 10), "," + (" " + r));
    var b := Member("running", ShowBool(st.running), "," + (" " + p));
    var m := Member("device", Quote(prints, st.device), "," + (" " + b));
    EntryShape(prints, st, rest);
    MemberQuoted("device", Quote(prints, st.device), "," + (" " + b));
    assert "" + m == m;
    BraceOpens("", m);
    if Readable(prints, st.device) {
      PairsRead(prints, st, more, rest);
    } else {
      QuoteReads(prints, st.device, "," + (" " + b));
      MemberFails("device", Quote(prints, st.device), "," + (" " + b));
    }
  }

  /** An opening brace before a member. */
  lemma BraceOpens(gap: string, m: string)
    requires Gap(gap) && m != "" && m[0] == '"'
    ensures var r := ParseMembers(m);
      ParseValue("{" + (gap + m)) == if r.None? then None else Some((Object(r.value.0), r.value.1))
  {
    var t := gap + m;
    NothingSkipped('{', t);
    NothingSkipped('"', m[1..]);
    GapSkipped(gap, m);
    assert m == ['"'] + m[1..] && ("{" + t)[1..] == t && "{" + t == ['{'] + t;
    hide ParseMembers, Gap;
  }

  // ----- the handlers array

  function EntryValues(statuses: seq<HandlerStatus>): seq<Value> {
    if statuses == [] then [] else [EntryValue(statuses[0])] + EntryValues(statuses[1..])
  }

  predicate AllReadable(prints: char -> bool, statuses: seq<HandlerStatus>) { forall i :: 0 <= i < |statuses| ==> Readable(prints, statuses[i].device) }

  lemma LineForm(e: string, comma: string, others: string, end: string)
    ensures (("    " + e + comma + "\n") + others) + end == "    " + (e + (comma + ("\n" + (others + end))))
  {
    var x := "\n" + (others + end);
    assert (("    " + e + comma + "\n") + others) + end == "    " + e + comma + x;
    assert "    " + e + comma + x == "    " + (e + (comma + x));
  }

  lemma LinesForm(prints: char -> bool, statuses: seq<HandlerStatus>, end: string)
    requires statuses != []
    ensures Lines(prints, statuses) + end == "    " + (Entry(prints, statuses[0]) +
      ((if |statuses| == 1 then "" else ",") + ("\n" + (Lines(prints, statuses[1..]) + end))))
  {
    hide Entry;
    LineForm(Entry(prints, statuses[0]), if |statuses| == 1 then "" else ",", Lines(prints, statuses[1..]), end);
  }

  /** The last item of an array, up to white space and the closing bracket. */
  lemma ItemEnds(text: string, v: Value, gap: string, rest: string)
    requires Gap(gap) && ParseValue(text + (gap + ("]" + rest))) == Some((v, gap + ("]" + rest)))
    ensures ParseItems(text + (gap + ("]" + rest))) == Some(([v], rest))
  {
    NothingSkipped(']', rest);
    GapSkipped(gap, "]" + rest);
    assert [']'] + rest == "]" + rest;
    assert Next(gap + ("]" + rest), ']') && After(gap + ("]" + rest)) == rest;
    hide ParseValue, SkipSpace, Next, After, Gap;
  }

  lemma ItemGoesOn(text: string, v: Value, gap: string, next: string)
    requires Gap(gap) && ParseValue(text + ("," + (gap + next))) == Some((v, "," + (gap + next)))
    ensures var others := ParseItems(next);
      ParseItems(text + ("," + (gap + next))) ==
      if others.None? then None else Some(([v] + others.value.0, others.value.1))
  {
    NothingSkipped(',', gap + next);
    GapSkipped(gap, next);
    assert [','] + (gap + next) == "," + (gap + next);
    hide ParseValue, SkipSpace, Next, After, Gap;
  }

  lemma LastForm(prints: char -> bool, st: HandlerStatus, rest: string)
    ensures Lines(prints, [st]) + ("  ]" + rest) == "    " + (Entry(prints, st) + ("\n  " + ("]" + rest)))
  {
    LinesForm(prints, [st], "  ]" + rest);
    assert Lines(prints, []) == "";
    hide Entry, Lines;
    assert "" + ("\n" + ("" + ("  ]" + rest))) == "\n  " + ("]" + rest);
  }

  lemma LastItem(prints: char -> bool, st: HandlerStatus, rest: string)
    ensures ParseItems(Lines(prints, [st]) + ("  ]" + rest)) == if Readable(prints, st.device) then Some(([EntryValue(st)], rest)) else None
  {
    hide Entry, EntryValue, ParseValue, Readable, Lines;
    var more := "\n  " + ("]" + rest);
    LastForm(prints, st, rest);
    GapSkipped("    ", Entry(prints, st) + more);
    EntryReads(prints, st, more);
    if Readable(prints, st.device) { ItemEnds(Entry(prints, st), EntryValue(st), "\n  ", rest); }
  }

  lemma OneMoreItem(prints: char -> bool, st: HandlerStatus, others: seq<HandlerStatus>, end: string)
    requires others != []
    ensures var r := ParseItems(Lines(prints, others) + end);
      ParseItems(Lines(prints, [st] + others) + end) ==
      if !Readable(prints, st.device) || r.None? then None else Some(([EntryValue(st)] + r.value.0, r.value.1))
  {
    hide Entry, EntryValue, ParseValue, Readable, Lines;
    var next := Lines(prints, others) + end;
    LinesForm(prints, [st] + others, end);
    assert ([st] + others)[1..] == others;
    GapSkipped("    ", Entry(prints, st) + ("," + ("\n" + next)));
    EntryReads(prints, st, "," + ("\n" + next));
    if Readable(prints, st.device) { ItemGoesOn(Entry(prints, st), EntryValue(st), "\n", next); }
  }

  lemma AllReadableSplit(prints: char -> bool, st: HandlerStatus, others: seq<HandlerStatus>)
    ensures AllReadable(prints, [st] + others) <==> Readable(prints, st.device) && AllReadable(prints, others)
  {
    var all := [st] + others;
    assert all[0] == st && forall i :: 0 <= i < |others| ==> all[i + 1] == others[i];
    assert forall i :: 0 < i < |all| ==> all[i] == others[i - 1];
    hide Readable;
  }

  lemma {:induction false} ItemsRead(prints: char -> bool, statuses: seq<HandlerStatus>, rest: string)
    requires statuses != []
    ensures ParseItems(Lines(prints, statuses) + ("  ]" + rest)) ==
      if AllReadable(prints, statuses) then Some((EntryValues(statuses), rest)) else None
  {
    var st, others := statuses[0], statuses[1..];
    assert statuses == [st] + others;
    if others == [] {
      LastItem(prints, st, rest);
      assert EntryValues(statuses) == [EntryValue(st)] + EntryValues(others) == [EntryValue(st)];
    } else {
      OneMoreItem(prints, st, others, "  ]" + rest);
      ItemsRead(prints, others, rest);
      AllReadableSplit(prints, st, others);
      hide AllReadable;
    }
    hide Entry, EntryValue, ParseItems, Readable, Lines;
  }

  // ----- the document

  lemma BracketOpens(gap: string, x: string)
    requires Gap(gap) && x != "" && x[0] == '{'
    ensures var r := ParseItems(x);
      ParseValue("[" + (gap + x)) == if r.None? then None else Some((Array(r.value.0), r.value.1))
  {
    var t := gap + x;
    NothingSkipped('[', t);
    NothingSkipped('{', x[1..]);
    GapSkipped(gap, x);
    assert x == ['{'] + x[1..] && ("[" + t)[1..] == t && "[" + t == ['['] + t;
    hide ParseItems, Gap;
  }

  lemma BracketCloses(gap: string, rest: string)
    requires Gap(gap)
    ensures ParseValue("[" + (gap + ("]" + rest))) == Some((Array([]), rest))
  {
    var t := gap + ("]" + rest);
    NothingSkipped('[', t);
    NothingSkipped(']', rest);
    GapSkipped(gap, "]" + rest);
    assert "]" + rest == [']'] + rest && ("[" + t)[1..] == t && "[" + t == ['['] + t;
    hide ParseItems, Gap;
  }

  /** Lines begin with an indented brace. */
  lemma LinesOpen(prints: char -> bool, statuses: seq<HandlerStatus>, end: string) returns (x: string)
    requires statuses != []
    ensures Lines(prints, statuses) + end == "    " + x && x != "" && x[0] == '{'
  {
    hide Entry;
    LinesForm(prints, statuses, end);
    EntryBraced(prints, statuses[0]);
    x := Entry(prints, statuses[0]) + ((if |statuses| == 1 then "" else ",") + ("\n" + (Lines(prints, statuses[1..]) + end)));
    assert x[0] == Entry(prints, statuses[0])[0];
    hide Lines;
  }

  lemma EmptyArrayReads(rest: string)
    ensures ParseValue("[" + ("\n" + ("" + ("  ]" + rest)))) == Some((Array([]), rest))
  {
    hide ParseValue;
    assert "\n" + ("" + ("  ]" + rest)) == "\n  " + ("]" + rest);
    BracketCloses("\n  ", rest);
  }

  lemma FullArrayReads(prints: char -> bool, statuses: seq<HandlerStatus>, rest: string)
    requires statuses != []
    ensures ParseValue("[" + ("\n" + (Lines(prints, statuses) + ("  ]" + rest)))) ==
      if AllReadable(prints, statuses) then Some((Array(EntryValues(statuses)), rest)) else None
  {
    hide AllReadable, EntryValues, ParseValue, ParseItems, Lines;
    var body := Lines(prints, statuses) + ("  ]" + rest);
    ItemsRead(prints, statuses, rest);
    var x := LinesOpen(prints, statuses, "  ]" + rest);
    GapSkipped("    ", x);
    assert "\n" + body == "\n    " + x;
    BracketOpens("\n    ", x);
  }

  lemma ArrayReads(prints: char -> bool, statuses: seq<HandlerStatus>, rest: string)
    ensures ParseValue("[" + ("\n" + (Lines(prints, statuses) + ("  ]" + rest)))) ==
      if AllReadable(prints, statuses) then Some((Array(EntryValues(statuses)), rest)) else None
  {
    hide ParseValue;
    if statuses == [] {
      EmptyArrayReads(rest);
    } else {
      FullArrayReads(prints, statuses, rest);
      hide AllReadable, EntryValues, Lines;
    }
  }

  lemma EntryBraced(prints: char -> bool, st: HandlerStatus)
    ensures Entry(prints, st) != "" && Entry(prints, st)[0] == '{'
  {
    hide Quote, Show, ShowBool, Pair;
  }

  function DocumentValue(statuses: seq<HandlerStatus>, healthy: bool): Value {
    Object([("handlers", Array(EntryValues(statuses))), ("healthy", Bool(healthy))])
  }

  function LastMember(healthy: bool): string { Member("healthy", ShowBool(healthy), "\n" + ("}" + "\n")) }

  function BothMembers(lines: string, healthy: bool): string {
    Member("handlers", "[" + ("\n" + (lines + "  ]")), "," + ("\n  " + LastMember(healthy)))
  }

  lemma TailForm(healthy: bool)
    ensures Tail(healthy) == "  ]" + ("," + ("\n  " + LastMember(healthy)))
  {
    hide ShowBool;
    assert LastMember(healthy) == "\"healthy\": " + ShowBool(healthy) + "\n}\n";
  }

  lemma DocumentForm(lines: string, healthy: bool)
    ensures HEAD + lines + Tail(healthy) == "{" + ("\n  " + BothMembers(lines, healthy))
  {
    TailForm(healthy);
    hide Tail, LastMember;
    var rest := "," + ("\n  " + LastMember(healthy));
    assert ("[" + ("\n" + (lines + "  ]"))) + rest == "[\n" + (lines + ("  ]" + rest));
  }

  lemma MembersRead(prints: char -> bool, statuses: seq<HandlerStatus>, healthy: bool)
    ensures ParseMembers(BothMembers(Lines(prints, statuses), healthy)) ==
      if AllReadable(prints, statuses) then Some((DocumentValue(statuses, healthy).members, "\n")) else None
  {
    hide Lines, ShowBool, ParseValue, ParseMembers, AllReadable, EntryValues, Member;
    var last := LastMember(healthy);
    var rest := "," + ("\n  " + last);
    var text := "[" + ("\n" + (Lines(prints, statuses) + "  ]"));
    ArrayReads(prints, statuses, rest);
    assert text + rest == "[" + ("\n" + (Lines(prints, statuses) + ("  ]" + rest))) by { hide LastMember; }
    if AllReadable(prints, statuses) {
      BoolReads(healthy, "\n" + ("}" + "\n"));
      MemberEnds("healthy", ShowBool(healthy), Bool(healthy), "\n", "\n");
      MemberGoesOn("handlers", text, Array(EntryValues(statuses)), "\n  ", last);
      assert [("handlers", Array(EntryValues(statuses)))] + [("healthy", Bool(healthy))] == DocumentValue(statuses, healthy).members;
    } else {
      MemberFails("handlers", text, rest);
    }
  }

  /** What the supervisor writes is one JSON document, exactly when every device name is made of
      characters that %q and JSON spell alike; the document is the expected one. */
  lemma DocumentReads(prints: char -> bool, statuses: seq<HandlerStatus>, healthy: bool)
    ensures ParseDocument(Document(prints, statuses, healthy)) ==
      if AllReadable(prints, statuses) then Some(DocumentValue(statuses, healthy)) else None
    ensures ParseValue(Document(prints, statuses, healthy)).Some? <==> AllReadable(prints, statuses)
    ensures AllReadable(prints, statuses) ==> ParseValue(Document(prints, statuses, healthy)).value.0 == DocumentValue(statuses, healthy)
  {
    hide Lines, LastMember, Tail, ParseValue, ParseMembers, AllReadable, EntryValues, Member;
    var m := BothMembers(Lines(prints, statuses), healthy);
    DocumentForm(Lines(prints, statuses), healthy);
    MemberQuoted("handlers", "[" + ("\n" + (Lines(prints, statuses) + "  ]")), "," + ("\n  " + LastMember(healthy)));
    MembersRead(prints, statuses, healthy);
    BraceOpens("\n  ", m);
    GapSkipped("\n", "");
    assert "\n" + "" == "\n";
    hide BothMembers;
  }

  // ----- decoding

  function FieldsOf(st: HandlerStatus): HandlerFields { HandlerFields(st.device, st.running, st.pid, st.restarts) }

  lemma EntryDecodes(st: HandlerStatus)
    ensures ReadHandler(EntryValue(st)) == Some(FieldsOf(st))
  {
    var ms := EntryValue(st).members;
    IntReads(st.pid);
    IntReads(st.restarts);
    hide Show, ReadInt;
    FieldLast(ms, "restarts");
    FieldEarlier(ms, "pid");
    FieldLast(ms[..3], "pid");
    FieldEarlier(ms, "running");
    FieldEarlier(ms[..3], "running");
    FieldLast(ms[..2], "running");
    FieldEarlier(ms, "device");
    FieldEarlier(ms[..3], "device");
    FieldEarlier(ms[..2], "device");
    FieldLast(ms[..1], "device");
    hide Field;
    assert ms[..3][..2] == ms[..2] && ms[..2][..1] == ms[..1];
  }

  lemma FieldLast(ms: seq<(string, Value)>, key: string)
    requires ms != [] && ms[|ms| - 1].0 == key
    ensures Field(ms, key) == ms[|ms| - 1].1
  {}

  /** A field's name is recognised in any mixture of cases, and its last occurrence counts. */
  lemma FieldAnyCase(ms: seq<(string, Value)>, name: string, v: Value, key: string)
    requires |name| == |key|
    requires forall i :: 0 <= i < |key| ==> name[i] == key[i] || ('a' <= key[i] <= 'z' && name[i] as int == key[i] as int - 32)
    ensures Field(ms + [(name, v)], key) == v
  {
    assert Fold(name) == Fold(key) by {
      forall i | 0 <= i < |key| ensures Fold(name)[i] == Fold(key)[i] {}
    }
  }

  lemma FieldEarlier(ms: seq<(string, Value)>, key: string)
    requires ms != [] && |ms[|ms| - 1].0| != |key|
    ensures Field(ms, key) == Field(ms[..|ms| - 1], key)
  {
    assert |Fold(ms[|ms| - 1].0)| != |Fold(key)|;
  }

  lemma {:induction false} EntriesDecode(statuses: seq<HandlerStatus>)
    ensures var r := ReadHandlers(EntryValues(statuses));
      && r.Some? && |r.value| == |statuses|
      && forall i :: 0 <= i < |statuses| ==> r.value[i] == FieldsOf(statuses[i])
  {
    if statuses != [] {
      EntryDecodes(statuses[0]);
      EntriesDecode(statuses[1..]);
      assert EntryValues(statuses)[1..] == EntryValues(statuses[1..]);
    }
    hide EntryValue, ReadHandler;
  }

  /** The round trip: the exporter reads back the same devices, running flags and restart
      counts in order if every name is readable, and otherwise nothing at all. */
  lemma StatusRoundTrip(prints: char -> bool, statuses: seq<HandlerStatus>, healthy: bool)
    ensures var r := Decode(Document(prints, statuses, healthy));
      && (r.Some? <==> AllReadable(prints, statuses))
      && (r.Some? ==>
            && r.value.healthy == healthy && |r.value.handlers| == |statuses|
            && forall i :: 0 <= i < |statuses| ==>
                 r.value.handlers[i] ==
                 HandlerFields(statuses[i].device, statuses[i].running, statuses[i].pid, statuses[i].restarts))
  {
    DocumentReads(prints, statuses, healthy);
    if AllReadable(prints, statuses) {
      var ms := DocumentValue(statuses, healthy).members;
      EntriesDecode(statuses);
      FieldLast(ms, "healthy");
      FieldEarlier(ms, "handlers");
      FieldLast(ms[..1], "handlers");
      hide Document, ParseValue, AllReadable, EntryValues, ReadHandlers, Field;
      assert ReadResponse(DocumentValue(statuses, healthy)).Some?;
    }
    hide Document, ParseValue, AllReadable, DocumentValue;
  }

  // ----- from the supervisor's map to the exporter's counter

  predicate DistinctDevices(statuses: seq<RestartCounter.HandlerStatus>) {
    forall i, j :: 0 <= i < j < |statuses| ==> statuses[i].device != statuses[j].device
  }

  /** The books of a device that is not shown. */
  predicate LeftAlone(b: RestartCounter.Books, c: RestartCounter.Books, device: string) {
    && (device in c.last <==> device in b.last) && (device in b.last ==> c.last[device] == b.last[device])
    && RestartCounter.CounterOf(c, device) == RestartCounter.CounterOf(b, device)
  }

  lemma EnterOne(b: RestartCounter.Books, st: RestartCounter.HandlerStatus, device: string)
    ensures st.device == device ==> Entered(b, RestartCounter.Enter(b, st), st)
    ensures st.device != device ==> LeftAlone(b, RestartCounter.Enter(b, st), device)
  {}

  lemma AloneThenEntered(b: RestartCounter.Books, c: RestartCounter.Books, d: RestartCounter.Books, st: RestartCounter.HandlerStatus)
    requires (LeftAlone(b, c, st.device) && Entered(c, d, st)) || (Entered(b, c, st) && LeftAlone(c, d, st.device))
    ensures Entered(b, d, st)
  {}

  lemma {:induction false} EnteredOnce(b: RestartCounter.Books, statuses: seq<RestartCounter.HandlerStatus>, device: string)
    requires DistinctDevices(statuses)
    ensures var c := RestartCounter.EnterAll(b, statuses);
      && ((forall i :: 0 <= i < |statuses| ==> statuses[i].device != device) ==> LeftAlone(b, c, device))
      && (forall i :: 0 <= i < |statuses| && statuses[i].device == device ==> Entered(b, c, statuses[i]))
  {
    if statuses != [] {
      var front, st := statuses[..|statuses| - 1], statuses[|statuses| - 1];
      EnteredOnce(b, front, device);
      var before := RestartCounter.EnterAll(b, front);
      EnterOne(before, st, device);
      assert forall i :: 0 <= i < |front| ==> front[i] == statuses[i];
      forall i | 0 <= i < |statuses| && statuses[i].device == device
        ensures Entered(b, RestartCounter.Enter(before, st), statuses[i])
      {
        AloneThenEntered(b, before, RestartCounter.Enter(before, st), statuses[i]);
      }
      hide RestartCounter.Enter, Entered;
    }
  }

  /** The count is noted, and the counter grows by its rise since the last one, if there was one. */
  predicate Entered(b: RestartCounter.Books, c: RestartCounter.Books, st: RestartCounter.HandlerStatus) {
    && st.device in c.last && c.last[st.device] == st.restarts
    && RestartCounter.CounterOf(c, st.device) == RestartCounter.CounterOf(b, st.device) +
         (if st.device in b.last then RestartCounter.Rise(b.last[st.device], st.restarts) else 0)
  }

  /** End to end: whatever order the supervisor lists its handlers in, after one scrape of its
      text the exporter has noted every handler's count and counted its rise, and has left the
      other devices alone. */
  lemma ScrapeEndToEnd(prints: char -> bool, b: RestartCounter.Books, handlers: map<string, Handler>, statuses: seq<HandlerStatus>, healthy: bool, device: string)
    requires Lists(statuses, handlers) && AllReadable(prints, statuses)
    ensures var r := Decode(Document(prints, statuses, healthy));
      r.Some? && var c := RestartCounter.EnterAll(b, KeptAll(r.value));
      if device in handlers
      then Entered(b, c, RestartCounter.HandlerStatus(device, handlers[device].running, handlers[device].restarts))
      else LeftAlone(b, c, device)
  {
    StatusRoundTrip(prints, statuses, healthy);
    hide Decode, Document, AllReadable;
    var kept := KeptAll(Decode(Document(prints, statuses, healthy)).value);
    assert |kept| == |statuses|;
    assert forall i :: 0 <= i < |statuses| ==> kept[i] == Kept(FieldsOf(statuses[i]));
    EnteredOnce(b, kept, device);
    if device in handlers {
      var i :| 0 <= i < |statuses| && statuses[i].device == device;
      assert kept[i].device == device;
    }
    hide Entered;
  }

  /** And its gauge of every handler shows whether that is running; other gauges stay. */
  lemma GaugesEndToEnd(prints: char -> bool, g: map<string, bool>, handlers: map<string, Handler>, statuses: seq<HandlerStatus>, healthy: bool, device: string)
    requires Lists(statuses, handlers) && AllReadable(prints, statuses)
    ensures var r := Decode(Document(prints, statuses, healthy));
      r.Some? && var after := RestartCounter.Gauges(g, KeptAll(r.value));
      if device in handlers then device in after && after[device] == handlers[device].running
      else (device in after <==> device in g) && (device in g ==> after[device] == g[device])
  {
    StatusRoundTrip(prints, statuses, healthy);
    hide Decode, Document, AllReadable;
    var kept := KeptAll(Decode(Document(prints, statuses, healthy)).value);
    assert |kept| == |statuses|;
    assert forall i :: 0 <= i < |statuses| ==> kept[i].device == statuses[i].device && kept[i].running == statuses[i].running;
    RestartCounter.GaugeShows(g, kept, device);
    hide RestartCounter.Gauges;
    if device in handlers {
      var i :| 0 <= i < |statuses| && statuses[i].device == device;
      assert kept[i].device == device;
    }
  }
}
