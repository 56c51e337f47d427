/** JSON texts by the grammar of RFC 8259: white space and structure (section 2), literals
    (section 3), objects (section 4), arrays (section 5), numbers (section 6), strings (section 7). */
module Json {
  import opened Basics
  import opened Numerals

  datatype Value =
    | Null
    | Bool(holds: bool)
    | Number(text: string)
    | String(text: string)
    | Array(items: seq<Value>)
    | Object(members: seq<(string, Value)>)

  predicate IsSpace(c: char) { c == ' ' || c == '\t' || c == '\n' || c == '\r' }

  function SkipSpace(s: string): (r: string)
    ensures |r| <= |s|
  {
    if s != "" && IsSpace(s[0]) then SkipSpace(s[1..]) else s
  }

  /** Whether s, after white space, goes on with c. */
  predicate Next(s: string, c: char) { var t := SkipSpace(s); t != "" && t[0] == c }

  function After(s: string): (r: string)
    requires SkipSpace(s) != ""
    ensures |r| < |s|
  {
    SkipSpace(s)[1..]
  }

  // ----- numbers

  predicate IsDigit(c: char) { '0' <= c <= '9' }

  predicate InNumber(c: char) { IsDigit(c) || c == '-' || c == '+' || c == '.' || c == 'e' || c == 'E' }

  function DigitSpan(s: string): (n: nat)
    ensures n <= |s|
  {
    if s != "" && IsDigit(s[0]) then 1 + DigitSpan(s[1..]) else 0
  }

  function NumberSpan(s: string): (n: nat)
    ensures n <= |s|
  {
    if s != "" && InNumber(s[0]) then 1 + NumberSpan(s[1..]) else 0
  }

  predicate IsExponent(t: string) {
    t == ""
    || ((t[0] == 'e' || t[0] == 'E') &&
        var u := if |t| > 1 && (t[1] == '+' || t[1] == '-') then t[2..] else t[1..];
        u != "" && DigitSpan(u) == |u|)
  }

  predicate IsFraction(t: string) {
    if t != "" && t[0] == '.' then DigitSpan(t[1..]) > 0 && IsExponent(t[1 + DigitSpan(t[1..])..])
    else IsExponent(t)
  }

  predicate IsNumber(t: string) {
    var u := if t != "" && t[0] == '-' then t[1..] else t;
    DigitSpan(u) > 0 && (u[0] == '0' ==> DigitSpan(u) == 1) && IsFraction(u[DigitSpan(u)..])
  }

  // ----- strings

  const REPLACEMENT: char := '\U{FFFD}'

  /** The four hexadecimal digits at the front of s. */
  function Unit(s: string): Option<nat> { if |s| < 4 then None else Denotes(s[..4], 16) }

  /** The escape after a backslash. A lone surrogate stands for the replacement character. */
  function ParseEscape(s: string): (r: Option<(char, string)>)
    ensures r.Some? ==> |r.value.1| < |s|
  {
    if s == "" then None
    else match s[0]
         case '"' => Some(('"', s[1..]))
         case '\\' => Some(('\\', s[1..]))
         case '/' => Some(('/', s[1..]))
         case 'b' => Some((8 as char, s[1..]))
         case 'f' => Some((12 as char, s[1..]))
         case 'n' => Some(('\n', s[1..]))
         case 'r' => Some(('\r', s[1..]))
         case 't' => Some(('\t', s[1..]))
         case 'u' => ParseUnits(s[1..])
         case _ => None
  }

  function ParseUnits(s: string): (r: Option<(char, string)>)
    ensures r.Some? ==> |r.value.1| <= |s|
  {
    var high := Unit(s);
    if high.None? then None
    else if high.value < 0xD800 || 0xE000 <= high.value < 0x10000 then Some((high.value as char, s[4..]))
    else
      var low := if |s| >= 6 && s[4..6] == "\\u" then Unit(s[6..]) else None;
      if high.value < 0xDC00 && low.Some? && 0xDC00 <= low.value < 0xE000 then
        Some(((0x10000 + (high.value - 0xD800) * 0x400 + (low.value - 0xDC00)) as char, s[10..]))
      else Some((REPLACEMENT, s[4..]))
  }

  /** The string after its opening quotation mark. */
  function ParseString(s: string): (r: Option<(string, string)>)
    ensures r.Some? ==> |r.value.1| < |s|
    decreases |s|
  {
    if s == "" || s[0] < ' ' then None
    else if s[0] == '"' then Some(("", s[1..]))
    else
      var first := if s[0] == '\\' then ParseEscape(s[1..]) else Some((s[0], s[1..]));
      if first.None? then None
      else
        var others := ParseString(first.value.1);
        if others.None? then None else Some(([first.value.0] + others.value.0, others.value.1))
  }

  // ----- values

  /** The value at the front of s and what follows it, or None where the grammar has none. */
  function ParseValue(s: string): (r: Option<(Value, string)>)
    ensures r.Some? ==> |r.value.1| < |s|
    decreases |s|, 0
  {
    var t := SkipSpace(s);
    if t == "" then None
    else if t[0] == '"' then
      var r := ParseString(t[1..]);
      if r.None? then None else Some((String(r.value.0), r.value.1))
    else if t[0] == '[' then
      if Next(t[1..], ']') then Some((Array([]), After(t[1..])))
      else var r := ParseItems(t[1..]); if r.None? then None else Some((Array(r.value.0), r.value.1))
    else if t[0] == '{' then
      if Next(t[1..], '}') then Some((Object([]), After(t[1..])))
      else var r := ParseMembers(t[1..]); if r.None? then None else Some((Object(r.value.0), r.value.1))
    else if "true" <= t then Some((Bool(true), t[4..]))
    else if "false" <= t then Some((Bool(false), t[5..]))
    else if "null" <= t then Some((Null, t[4..]))
    else
      var n := NumberSpan(t);
      if IsNumber(t[..n]) then Some((Number(t[..n]), t[n..])) else None
  }

  /** One or more values up to the closing bracket. */
  function ParseItems(s: string): (r: Option<(seq<Value>, string)>)
    ensures r.Some? ==> |r.value.1| < |s|
    decreases |s|, 1
  {
    var v := ParseValue(s);
    if v.None? then None
    else if Next(v.value.1, ']') then Some(([v.value.0], After(v.value.1)))
    else if Next(v.value.1, ',') then
      var others := ParseItems(After(v.value.1));
      if others.None? then None else Some(([v.value.0] + others.value.0, others.value.1))
    else None
  }

  /** One or more members up to the closing brace. */
  function ParseMembers(s: string): (r: Option<(seq<(string, Value)>, string)>)
    ensures r.Some? ==> |r.value.1| < |s|
    decreases |s|, 1
  {
    if !Next(s, '"') then None
    else
      var key := ParseString(After(s));
      if key.None? || !Next(key.value.1, ':') then None
      else
        var v := ParseValue(After(key.value.1));
        if v.None? then None
        else if Next(v.value.1, '}') then Some(([(key.value.0, v.value.0)], After(v.value.1)))
        else if Next(v.value.1, ',') then
          var others := ParseMembers(After(v.value.1));
          if others.None? then None else Some(([(key.value.0, v.value.0)] + others.value.0, others.value.1))
        else None
  }

  /** A whole document: one value, then white space only. */
  function ParseDocument(s: string): Option<Value> {
    var v := ParseValue(s);
    if v.None? || SkipSpace(v.value.1) != "" then None else Some(v.value.0)
  }
}
