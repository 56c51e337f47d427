/** The supervisor's /status text and the exporter's reader of it. */
module StatusText {
  import opened Basics
  import opened Numerals
  import Json
  import RestartCounter

  /** A non-negative int of a 64-bit platform. */
  type Count = n: nat | n < 0x8000_0000_0000_0000

  const INT_MAX: int := 0x7FFF_FFFF_FFFF_FFFF

  /** What the supervisor keeps of a handler. A pid is known once a process was started. */
  datatype Handler = Handler(running: bool, pid: Option<Count>, restarts: Count)

  datatype HandlerStatus = HandlerStatus(device: string, running: bool, pid: Count, restarts: Count)

  function StatusOf(device: string, h: Handler): HandlerStatus {
    HandlerStatus(device, h.running, if h.pid.Some? then h.pid.value else 0, h.restarts)
  }

  // ----- the supervisor's side

  /** The statuses list every handler once, in some order. */
  ghost predicate Lists(statuses: seq<HandlerStatus>, handlers: map<string, Handler>) {
    && (forall i, j :: 0 <= i < j < |statuses| ==> statuses[i].device != statuses[j].device)
    && (forall i :: 0 <= i < |statuses| ==>
          && statuses[i].device in handlers
          && statuses[i].running == handlers[statuses[i].device].running
          && statuses[i].restarts == handlers[statuses[i].device].restarts
          && (handlers[statuses[i].device].pid.Some? ==> statuses[i].pid == handlers[statuses[i].device].pid.value)
          && (handlers[statuses[i].device].pid.None? ==> statuses[i].pid == 0))
    && (forall d :: d in handlers ==> exists i :: 0 <= i < |statuses| && statuses[i].device == d)
  }

  lemma ListsOneMore(statuses: seq<HandlerStatus>, done: map<string, Handler>, device: string, h: Handler)
    requires Lists(statuses, done) && device !in done
    ensures Lists(statuses + [StatusOf(device, h)], done[device := h])
  {
    var more := statuses + [StatusOf(device, h)];
    var all := done[device := h];
    forall d | d in all ensures exists i :: 0 <= i < |more| && more[i].device == d {
      if d == device {
        assert more[|statuses|].device == d;
      } else {
        var i :| 0 <= i < |statuses| && statuses[i].device == d;
        assert more[i].device == d;
      }
    }
  }

  method GetStatus(handlers: map<string, Handler>) returns (statuses: seq<HandlerStatus>)
    ensures Lists(statuses, handlers)
  {
    statuses := [];
    var todo := handlers.Keys;
    ghost var done: map<string, Handler> := map[];
    assert Lists([], map[]);
    hide Lists;
    while todo != {}
      invariant todo <= handlers.Keys && done == handlers - todo
      invariant Lists(statuses, done)
      decreases |todo|
    {
      var device :| device in todo;
      ListsOneMore(statuses, done, device, handlers[device]);
      statuses := statuses + [StatusOf(device, handlers[device])];
      todo := todo - {device};
      done := done[device := handlers[device]];
    }
    assert done == handlers;
  }

  method IsHealthy(handlers: map<string, Handler>) returns (healthy: bool)
    ensures healthy <==> forall d :: d in handlers ==> handlers[d].running
  {
    var todo := handlers.Keys;
    while todo != {}
      invariant todo <= handlers.Keys
      invariant forall d :: d in handlers && d !in todo ==> handlers[d].running
      decreases |todo|
    {
      var device :| device in todo;
      if !handlers[device].running { return false; }
      todo := todo - {device};
    }
    return true;
  }

  function Hex4(n: nat): string
    requires n < 0x10000
  {
    [DigitChar(n / 0x1000), DigitChar(n / 0x100 % 16), DigitChar(n / 16 % 16), DigitChar(n % 16)]
  }

  /** One character as the %q verb writes it. `prints` is the Unicode table of printable
      characters, asked about those beyond ASCII. */
  function QuoteChar(prints: char -> bool, c: char): string {
    if c == '"' then "\\\""
    else if c == '\\' then "\\\\"
    else if ' ' <= c <= '~' || (c >= '\U{80}' && prints(c)) then [c]
    else match c as nat
         case 7 => "\\a"
         case 8 => "\\b"
         case 9 => "\\t"
         case 10 => "\\n"
         case 11 => "\\v"
         case 12 => "\\f"
         case 13 => "\\r"
         case n =>
           if n < 0x80 then "\\x" + [DigitChar(n / 16), DigitChar(n % 16)]
           else if n < 0x10000 then "\\u" + Hex4(n)
           else "\\U" + Hex4(n / 0x10000) + Hex4(n % 0x10000)
  }

  function QuoteBody(prints: char -> bool, s: string): string {
    if s == "" then "" else QuoteChar(prints, s[0]) + QuoteBody(prints, s[1..])
  }

  function Quote(prints: char -> bool, s: string): string { "\"" + QuoteBody(prints, s) + "\"" }

  function ShowBool(b: bool): string { if b then "true" else "false" }

  function Pair(key: string, text: string): string { "\"" + key + "\": " + text }

  function Entry(prints: char -> bool, st: HandlerStatus): string {
    "{" + Pair("device", Quote(prints, st.device)) + ", " + Pair("running", ShowBool(st.running))
    + ", " + Pair("pid", Show(st.pid, 10)) + ", " + Pair("restarts", Show(st.restarts, 10)) + "}"
  }

  function Line(prints: char -> bool, st: HandlerStatus, last: bool): string { "    " + Entry(prints, st) + (if last then "" else ",") + "\n" }

  /** The lines of the handlers still to be written. */
  function Lines(prints: char -> bool, statuses: seq<HandlerStatus>): string {
    if statuses == [] then "" else Line(prints, statuses[0], |statuses| == 1) + Lines(prints, statuses[1..])
  }

  const HEAD := "{\n  \"handlers\": [\n"

  function Tail(healthy: bool): string { "  ],\n  \"healthy\": " + ShowBool(healthy) + "\n}\n" }

  function Document(prints: char -> bool, statuses: seq<HandlerStatus>, healthy: bool): string { HEAD + Lines(prints, statuses) + Tail(healthy) }

  method WriteLine(prints: char -> bool, status: HandlerStatus, last: bool) returns (line: string)
    ensures line == Line(prints, status, last)
  {
    hide Entry;
    line := "    " + Entry(prints, status);
    if !last { line := line + ","; }
    line := line + "\n";
  }

  /** The /status endpoint's printer. */
  method WriteStatus(prints: char -> bool, statuses: seq<HandlerStatus>, healthy: bool) returns (w: string)
    ensures w == Document(prints, statuses, healthy)
  {
    hide Line;
    w := HEAD;
    for i := 0 to |statuses|
      invariant w + Lines(prints, statuses[i..]) == HEAD + Lines(prints, statuses)
    {
      assert statuses[i..][1..] == statuses[i + 1..];
      var line := WriteLine(prints, statuses[i], i == |statuses| - 1);
      w := w + line;
    }
    w := w + Tail(healthy);
  }

  // ----- the exporter's side

  /** strconv.ParseInt(text, 10, 64). */
  function ParseInt(text: string): Option<int> {
    var negative := text != "" && text[0] == '-';
    var n := Denotes(if negative then text[1..] else text, 10);
    if n.None? || n.value > INT_MAX + (if negative then 1 else 0) then None
    else
      var value: int := n.value;
      Some(if negative then -value else value)
  }

  /** Decoding into a Go field: null and a missing member leave the zero value. */
  function ReadInt(v: Json.Value): Option<int> {
    match v
    case Number(text) => ParseInt(text)
    case Null => Some(0)
    case _ => None
  }

  function ReadBool(v: Json.Value): Option<bool> {
    match v
    case Bool(b) => Some(b)
    case Null => Some(false)
    case _ => None
  }

  function ReadString(v: Json.Value): Option<string> {
    match v
    case String(s) => Some(s)
    case Null => Some("")
    case _ => None
  }

  /** How encoding/json compares field names: without regard to letter case, which takes the long
      s and the Kelvin sign for the letters they are variants of. */
  function FoldChar(c: char): char {
    if 'a' <= c <= 'z' then (c as nat - 32) as char
    else if c == '\U{17F}' then 'S'
    else if c == '\U{212A}' then 'K'
    else c
  }

  function Fold(s: string): string { seq(|s|, i requires 0 <= i < |s| => FoldChar(s[i])) }

  /** The value under a field's name; the last one counts. */
  function Field(members: seq<(string, Json.Value)>, key: string): Json.Value {
    if members == [] then Json.Null
    else
      var last := members[|members| - 1];
      if Fold(last.0) == Fold(key) then last.1 else Field(members[..|members| - 1], key)
  }

  datatype HandlerFields = HandlerFields(device: string, running: bool, pid: int, restarts: int)

  datatype Response = Response(handlers: seq<HandlerFields>, healthy: bool)

  function ReadHandler(v: Json.Value): Option<HandlerFields> {
    match v
    case Null => Some(HandlerFields("", false, 0, 0))
    case Object(ms) =>
      var device, running := ReadString(Field(ms, "device")), ReadBool(Field(ms, "running"));
      var pid, restarts := ReadInt(Field(ms, "pid")), ReadInt(Field(ms, "restarts"));
      if device.None? || running.None? || pid.None? || restarts.None? then None
      else Some(HandlerFields(device.value, running.value, pid.value, restarts.value))
    case _ => None
  }

  function ReadHandlers(vs: seq<Json.Value>): Option<seq<HandlerFields>> {
    if vs == [] then Some([])
    else
      var h, others := ReadHandler(vs[0]), ReadHandlers(vs[1..]);
      if h.None? || others.None? then None else Some([h.value] + others.value)
  }

  function ReadResponse(v: Json.Value): Option<Response> {
    match v
    case Null => Some(Response([], false))
    case Object(ms) =>
      var hs := Field(ms, "handlers");
      var handlers := if hs.Null? then Some([]) else if hs.Array? then ReadHandlers(hs.items) else None;
      var healthy := ReadBool(Field(ms, "healthy"));
      if handlers.None? || healthy.None? then None else Some(Response(handlers.value, healthy.value))
    case _ => None
  }

  /** The decoder takes the first value of the body. */
  function Decode(body: string): Option<Response> {
    var v := Json.ParseValue(body);
    if v.None? then None else ReadResponse(v.value.0)
  }

  datatype Reply = Unreachable | Reply(code: nat, body: string)

  function Kept(h: HandlerFields): RestartCounter.HandlerStatus {
    RestartCounter.HandlerStatus(h.device, h.running, h.restarts)
  }

  function KeptAll(response: Response): seq<RestartCounter.HandlerStatus> {
    seq(|response.handlers|, i requires 0 <= i < |response.handlers| => Kept(response.handlers[i]))
  }

  /** The exporter's client; None is an error. */
  method Fetch(reply: Reply) returns (r: Option<seq<RestartCounter.HandlerStatus>>)
    ensures r.Some? <==> reply.Reply? && reply.code == 200 && Decode(reply.body).Some?
    ensures r.Some? ==> r.value == KeptAll(Decode(reply.body).value)
  {
    if reply.Unreachable? || reply.code != 200 { return None; }
    var response := Decode(reply.body);
    if response.None? { return None; }
    var statuses := [];
    for i := 0 to |response.value.handlers|
      invariant |statuses| == i
      invariant forall j :: 0 <= j < i ==> statuses[j] == Kept(response.value.handlers[j])
    {
      statuses := statuses + [Kept(response.value.handlers[i])];
    }
    return Some(statuses);
  }
}
