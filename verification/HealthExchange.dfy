/**
 The gateway health exchange: receive one header block and exactly the announced
 body, then insist on the end of the stream.  Characters stand for bytes.  The
 source may deliver any non-empty part of what is asked for; its own failures and
 deadlines are not modelled.
 */
module HealthExchange {
  import opened Wrappers
  import opened FixtureClock

  const MAX_HEADERS := 16 * 1024
  const MAX_HEADER_COUNT := 32
  const MAX_BODY_BYTES := 128 * 1024
  const HEADER_CHUNK := 2048
  const BODY_CHUNK := 4096
  const LINE_END := "\r\n"
  const BLOCK_END := "\r\n\r\n"

  datatype HealthError = Bounds | Framing | Unavailable | Authentication

  datatype Response = Response(status: nat, tag: string, body: string)

  datatype Head = Head(status: nat, length: nat, tag: string)

  // ----- header block -----

  predicate Printable(c: char) { ' ' <= c <= '~' }

  predicate AllPrintable(s: string) { forall i :: 0 <= i < |s| ==> Printable(s[i]) }

  predicate NameChar(c: char) {
    '0' <= c <= '9' || 'A' <= c <= 'Z' || 'a' <= c <= 'z' || c == '-'
  }

  predicate ValidName(s: string) { s != [] && forall i :: 0 <= i < |s| ==> NameChar(s[i]) }

  predicate Ascii(s: string) { forall i :: 0 <= i < |s| ==> s[i] as int < 128 }

  function LowerChar(c: char): char { if 'A' <= c <= 'Z' then (c as int + 32) as char else c }

  function Lower(s: string): string { seq(|s|, i requires 0 <= i < |s| => LowerChar(s[i])) }

  /** Index of the first occurrence of a character. */
  function Find(s: string, c: char): (r: Option<nat>)
    ensures r.Some? ==> r.value < |s| && s[r.value] == c && c !in s[..r.value]
    ensures r.None? ==> c !in s
  {
    if s == [] then None
    else if s[0] == c then Some(0)
    else
      var rest := Find(s[1..], c);
      if rest.None? then None else Some(rest.value + 1)
  }

  function TrimLeft(s: string): string { if s != [] && s[0] == ' ' then TrimLeft(s[1..]) else s }

  function TrimRight(s: string): string { if s != [] && s[|s| - 1] == ' ' then TrimRight(s[..|s| - 1]) else s }

  function Trim(s: string): string { TrimRight(TrimLeft(s)) }

  /** The pieces between line ends. */
  function Lines(s: string): (lines: seq<string>)
    ensures lines != []
    decreases |s|
  {
    if s == [] then [[]]
    else if LINE_END <= s then [[]] + Lines(s[2..])
    else
      var rest := Lines(s[1..]);
      [[s[0]] + rest[0]] + rest[1..]
  }

  function StatusOf(first: string): Result<nat, HealthError> {
    var version := Find(first, ' ');
    if (if version.Some? then first[..version.value] else first) != "HTTP/1.1" then Err(Framing)
    else if version.None? then Err(Unavailable)
    else
      var rest := first[version.value + 1..];
      var code := Find(rest, ' ');
      var status := if code.Some? then rest[..code.value] else rest;
      if status != "200" && status != "503" then Err(Unavailable)
      else if code.None? || rest[code.value + 1..] == [] || !AllPrintable(rest[code.value + 1..]) then Err(Framing)
      else Ok(if status == "200" then 200 else 503)
  }

  datatype Field = Field(name: string, value: string)

  /** A header line that reads as a field; its name is lower-cased. */
  function FieldOf(line: string): Option<Field> {
    var colon := Find(line, ':');
    if colon.None? || !ValidName(line[..colon.value]) || !AllPrintable(Trim(line[colon.value + 1..])) then None
    else Some(Field(Lower(line[..colon.value]), Trim(line[colon.value + 1..])))
  }

  function Fields(lines: seq<string>): Result<map<string, string>, HealthError> {
    if lines == [] then Ok(map[])
    else
      var before, line := Fields(lines[..|lines| - 1]), lines[|lines| - 1];
      if before.Err? || line == [] then before
      else if |before.value| >= MAX_HEADER_COUNT then Err(Bounds)
      else
        var field := FieldOf(line);
        if field.None? || field.value.name in before.value then Err(Framing)
        else Ok(before.value[field.value.name := field.value.value])
  }

  function DigitsValue(s: string): nat {
    if s == [] then 0 else 10 * DigitsValue(s[..|s| - 1]) + (if IsDigit(s[|s| - 1]) then s[|s| - 1] as int - '0' as int else 0)
  }

  /** The announced length: the canonical decimal spelling of a number from 1 to the body limit. */
  function LengthOf(raw: string): Option<nat> {
    var n := DigitsValue(raw);
    if AllDigits(raw) && 1 <= n <= MAX_BODY_BYTES && Decimal(n) == raw then Some(n) else None
  }

  function HeadOf(status: nat, fields: map<string, string>): Result<Head, HealthError> {
    if "transfer-encoding" in fields || "content-encoding" in fields then Err(Framing)
    else if "content-type" !in fields
            || (fields["content-type"] != "application/json"
                && fields["content-type"] != "application/json; charset=utf-8") then Err(Framing)
    else if "connection" !in fields || Lower(fields["connection"]) != "close" then Err(Framing)
    else if "content-length" !in fields then Err(Framing)
    else
      var length := LengthOf(fields["content-length"]);
      if length.None? then Err(Bounds)
      else if "x-sts2-health-attestation" !in fields || |fields["x-sts2-health-attestation"]| != 64 then Err(Authentication)
      else Ok(Head(status, length.value, fields["x-sts2-health-attestation"]))
  }

  function ParseHeaders(text: string): Result<Head, HealthError> {
    if !Ascii(text) then Err(Framing)
    else
      var lines := Lines(text);
      var status := StatusOf(lines[0]);
      if status.Err? then Err(status.error)
      else
        var fields := Fields(lines[1..]);
        if fields.Err? then Err(fields.error) else HeadOf(status.value, fields.value)
  }

  // ----- the whole exchange -----

  /** End of the first header block, if the text contains one. */
  function HeaderEnd(s: string): (e: Option<nat>)
    ensures e.Some? ==> 4 <= e.value <= |s|
  {
    if |s| < 4 then None
    else if s[..4] == BLOCK_END then Some(4)
    else
      var rest := HeaderEnd(s[1..]);
      if rest.None? then None else Some(rest.value + 1)
  }

  /** What an exchange answers, as a function of the byte stream alone. */
  function Receive(stream: string): Result<Response, HealthError> {
    var end := HeaderEnd(stream);
    if end.None? then Err(if |stream| >= MAX_HEADERS then Bounds else Framing)
    else if end.value > MAX_HEADERS then Err(Bounds)
    else
      var head := ParseHeaders(stream[..end.value]);
      if head.Err? then Err(head.error)
      else if |stream| - end.value != head.value.length then Err(Framing)
      else Ok(Response(head.value.status, head.value.tag, stream[end.value..]))
  }

  lemma {:induction false} EndInPrefix(s: string, more: string)
    ensures HeaderEnd(s).Some? ==> HeaderEnd(s + more) == HeaderEnd(s)
    ensures HeaderEnd(s).None? && HeaderEnd(s + more).Some? ==> HeaderEnd(s + more).value > |s|
    decreases |s|
  {
    if |s| >= 4 {
      assert (s + more)[..4] == s[..4];
      if s[..4] != BLOCK_END {
        assert (s + more)[1..] == s[1..] + more;
        EndInPrefix(s[1..], more);
      }
    } else if s != [] && HeaderEnd(s + more).Some? && (s + more)[..4] != BLOCK_END {
      assert (s + more)[1..] == s[1..] + more;
      EndInPrefix(s[1..], more);
    }
  }

  class Source {
    var rest: string

    constructor (stream: string)
      ensures rest == stream
    {
      rest := stream;
    }

    /** A read of an error-free stream: nothing at its end, otherwise at least one byte. */
    method Read(limit: nat) returns (chunk: string)
      requires limit > 0
      modifies this
      ensures old(rest) == chunk + rest && |chunk| <= limit
      ensures chunk == [] <==> old(rest) == []
    {
      if rest == [] { return []; }
      assert 1 <= limit && 1 <= |rest|;
      var count: nat :| 1 <= count <= limit && count <= |rest|;
      chunk := rest[..count];
      rest := rest[count..];
    }
  }

  /** Reads until the header block is complete. */
  method ReceiveHead(source: Source) returns (result: Result<(string, nat), HealthError>)
    modifies source
    ensures result.Ok? ==>
      && old(source.rest) == result.value.0 + source.rest
      && HeaderEnd(old(source.rest)) == Some(result.value.1) && result.value.1 <= MAX_HEADERS && result.value.1 <= |result.value.0|
    ensures result.Err? ==>
      && Receive(old(source.rest)) == Err(result.error)
      && (HeaderEnd(old(source.rest)).None? || HeaderEnd(old(source.rest)).value > MAX_HEADERS)
  {
    ghost var stream := source.rest;
    var received := "";
    while true
      invariant stream == received + source.rest
      decreases |source.rest|
    {
      EndInPrefix(received, source.rest);
      var end := HeaderEnd(received);
      if end.Some? {
        if end.value > MAX_HEADERS { return Err(Bounds); }
        return Ok((received, end.value));
      }
      if |received| >= MAX_HEADERS { return Err(Bounds); }
      var chunk := source.Read(HEADER_CHUNK);
      if chunk == [] {
        assert received == stream;
        return Err(Framing);
      }
      received := received + chunk;
    }
  }

  /** Reads the rest of the body. */
  method ReceiveBody(source: Source, start: string, length: nat) returns (body: Option<string>)
    requires |start| <= length
    modifies source
    ensures body.Some? ==> |body.value| == length && start + old(source.rest) == body.value + source.rest
    ensures body.None? ==> |start + old(source.rest)| < length
  {
    ghost var stream := start + source.rest;
    var received := start;
    while |received| < length
      invariant |received| <= length && stream == received + source.rest
      decreases |source.rest|
    {
      var limit := if length - |received| < BODY_CHUNK then length - |received| else BODY_CHUNK;
      var chunk := source.Read(limit);
      if chunk == [] { return None; }
      received := received + chunk;
    }
    body := Some(received);
  }

  lemma Slices(received: string, rest: string, end: nat)
    requires end <= |received|
    ensures (received + rest)[..end] == received[..end] && (received + rest)[end..] == received[end..] + rest
  {
  }

  /** From a complete header block to the end of the stream. */
  method ReceiveRest(source: Source, start: string, length: nat) returns (body: Option<string>)
    modifies source
    ensures body == if |start + old(source.rest)| == length then Some(start + old(source.rest)) else None
  {
    if |start| > length { return None; }
    body := ReceiveBody(source, start, length);
    if body.None? { return None; }
    var extra := source.Read(1);
    if extra != [] { return None; }
    assert body.value + [] == body.value;
  }

  method Exchange(source: Source) returns (result: Result<Response, HealthError>)
    modifies source
    ensures result == Receive(old(source.rest))
  {
    var head := ReceiveHead(source);
    if head.Err? { return Err(head.error); }
    var (received, end) := head.value;
    Slices(received, source.rest, end);
    var parsed := Headers(received[..end]);
    if parsed.Err? { return Err(parsed.error); }
    var body := ReceiveRest(source, received[end..], parsed.value.length);
    if body.None? { return Err(Framing); }
    result := Ok(Response(parsed.value.status, parsed.value.tag, body.value));
  }

  method CollectFields(lines: seq<string>) returns (result: Result<map<string, string>, HealthError>)
    ensures result == Fields(lines)
  {
    var fields: map<string, string> := map[];
    for i := 0 to |lines|
      invariant Fields(lines[..i]) == Ok(fields)
    {
      var line := lines[i];
      assert lines[..i + 1][..i] == lines[..i];
      if line != [] {
        if |fields| >= MAX_HEADER_COUNT {
          FailureStays(lines, i + 1);
          return Err(Bounds);
        }
        var field := FieldOf(line);
        if field.None? || field.value.name in fields {
          FailureStays(lines, i + 1);
          return Err(Framing);
        }
        fields := fields[field.value.name := field.value.value];
      }
    }
    assert lines[..|lines|] == lines;
    result := Ok(fields);
  }

  lemma {:induction false} FailureStays(lines: seq<string>, n: nat)
    requires n <= |lines| && Fields(lines[..n]).Err?
    ensures Fields(lines) == Fields(lines[..n])
    decreases |lines|
  {
    if n == |lines| {
      assert lines[..n] == lines;
    } else {
      assert lines[..|lines| - 1][..n] == lines[..n];
      FailureStays(lines[..|lines| - 1], n);
    }
  }

  method Headers(text: string) returns (result: Result<Head, HealthError>)
    ensures result == ParseHeaders(text)
  {
    if !Ascii(text) { return Err(Framing); }
    var lines := Lines(text);
    var status := StatusOf(lines[0]);
    if status.Err? { return Err(status.error); }
    var fields := CollectFields(lines[1..]);
    if fields.Err? { return Err(fields.error); }
    result := HeadOf(status.value, fields.value);
  }

  // ----- what is accepted -----

  predicate EndsAt(s: string, n: nat) { 4 <= n <= |s| && s[n - 4..n] == BLOCK_END }

  lemma {:induction false} HeaderEndIsFirst(s: string, n: nat)
    ensures HeaderEnd(s) == Some(n) <==> EndsAt(s, n) && forall m :: 4 <= m < n ==> !EndsAt(s, m)
    decreases |s|
  {
    if |s| >= 4 && s[..4] != BLOCK_END {
      assert !EndsAt(s, 4);
      forall m: nat | m > 4 ensures EndsAt(s, m) <==> EndsAt(s[1..], m - 1) {
        if m <= |s| { assert s[m - 4..m] == s[1..][m - 5..m - 1]; }
      }
      if n > 0 {
        HeaderEndIsFirst(s[1..], n - 1);
        if EndsAt(s, n) && (forall m :: 4 <= m < n ==> !EndsAt(s, m)) {
          forall m | 4 <= m < n - 1 ensures !EndsAt(s[1..], m) { assert !EndsAt(s, m + 1); }
        }
        if HeaderEnd(s[1..]) == Some(n - 1) {
          forall m | 4 <= m < n ensures !EndsAt(s, m) { if m > 4 { assert !EndsAt(s[1..], m - 1); } }
        }
      }
    } else if |s| >= 4 {
      assert EndsAt(s, 4);
    }
  }

  lemma {:induction false} DecimalValue(n: nat)
    ensures DigitsValue(Decimal(n)) == n
  {
    if n >= 10 {
      DecimalValue(n / 10);
      assert Decimal(n)[..|Decimal(n)| - 1] == Decimal(n / 10);
    } else {
      assert Decimal(n)[..0] == [];
    }
  }

  /** A length is accepted only in its canonical spelling: no sign, no leading zero, within the limit. */
  lemma LengthIsCanonical(raw: string, n: nat)
    ensures LengthOf(raw) == Some(n) <==> 1 <= n <= MAX_BODY_BYTES && raw == Decimal(n)
  {
    DecimalValue(n);
  }

  predicate AllFields(lines: seq<string>) { forall i :: 0 <= i < |lines| && lines[i] != [] ==> FieldOf(lines[i]).Some? }

  /** The fields of the non-empty lines, in order. */
  function FieldList(lines: seq<string>): seq<Field> {
    if lines == [] then []
    else
      var before, line := FieldList(lines[..|lines| - 1]), lines[|lines| - 1];
      if line == [] || FieldOf(line).None? then before else before + [FieldOf(line).value]
  }

  predicate Distinct(list: seq<Field>) { forall i, j :: 0 <= i < j < |list| ==> list[i].name != list[j].name }

  ghost predicate Named(list: seq<Field>, name: string) { exists i :: 0 <= i < |list| && list[i].name == name }

  /** A map holds exactly the fields of a list. */
  ghost predicate MapOf(fields: map<string, string>, list: seq<Field>) {
    && |fields| == |list|
    && (forall i :: 0 <= i < |list| ==> list[i].name in fields && fields[list[i].name] == list[i].value)
    && (forall name :: name in fields ==> Named(list, name))
  }

  lemma NamedNext(list: seq<Field>, field: Field, name: string)
    requires Named(list, name) || field.name == name
    ensures Named(list + [field], name)
  {
    var all := list + [field];
    if field.name == name {
      assert all[|list|].name == name;
    } else {
      var i :| 0 <= i < |list| && list[i].name == name;
      assert all[i].name == name;
    }
  }

  lemma DistinctNext(list: seq<Field>, field: Field)
    requires Distinct(list)
    ensures Distinct(list + [field]) <==> !Named(list, field.name)
  {
    var all := list + [field];
    if Named(list, field.name) {
      var i :| 0 <= i < |list| && list[i].name == field.name;
      assert all[i].name == all[|list|].name;
    }
  }

  lemma OneMore(fields: map<string, string>, field: Field)
    requires field.name !in fields
    ensures |fields[field.name := field.value]| == |fields| + 1
  {
    var more := fields[field.name := field.value];
    assert more.Keys == fields.Keys + {field.name} && |more| == |more.Keys|;
  }

  lemma MapNext(fields: map<string, string>, list: seq<Field>, field: Field)
    requires MapOf(fields, list) && field.name !in fields
    ensures MapOf(fields[field.name := field.value], list + [field])
  {
    var more := fields[field.name := field.value];
    OneMore(fields, field);
    forall name | name in more ensures Named(list + [field], name) { NamedNext(list, field, name); }
  }

  lemma NamedIsKey(fields: map<string, string>, list: seq<Field>, name: string)
    requires MapOf(fields, list)
    ensures name in fields <==> Named(list, name)
  {
  }

  lemma DistinctPrefix(list: seq<Field>, field: Field)
    requires Distinct(list + [field])
    ensures Distinct(list)
  {
    var all := list + [field];
    assert forall i :: 0 <= i < |list| ==> all[i] == list[i];
  }

  lemma AllFieldsNext(lines: seq<string>)
    requires lines != []
    ensures AllFields(lines) <==>
      AllFields(lines[..|lines| - 1]) && (lines[|lines| - 1] != [] ==> FieldOf(lines[|lines| - 1]).Some?)
  {
    var init := lines[..|lines| - 1];
    assert forall i :: 0 <= i < |init| ==> init[i] == lines[i];
  }

  ghost predicate Acceptable(lines: seq<string>) {
    AllFields(lines) && Distinct(FieldList(lines)) && |FieldList(lines)| <= MAX_HEADER_COUNT
  }

  lemma AcceptableNext(lines: seq<string>)
    requires lines != [] && Acceptable(lines)
    ensures Acceptable(lines[..|lines| - 1])
  {
    var init, line := lines[..|lines| - 1], lines[|lines| - 1];
    AllFieldsNext(lines);
    if line != [] { DistinctPrefix(FieldList(init), FieldOf(line).value); }
  }

  /**
   Header lines are accepted exactly when every one is a field, no name repeats in
   any spelling of its case, and there are at most 32; the result is exactly
   those fields.
   */
  lemma {:induction false} FieldsAcceptedIff(lines: seq<string>)
    ensures Fields(lines).Ok? <==> Acceptable(lines)
    ensures Fields(lines).Ok? ==> MapOf(Fields(lines).value, FieldList(lines))
    decreases |lines|
  {
    if lines != [] {
      var init, line := lines[..|lines| - 1], lines[|lines| - 1];
      FieldsAcceptedIff(init);
      AllFieldsNext(lines);
      if Fields(init).Err? {
        if Acceptable(lines) { AcceptableNext(lines); }
      } else if line != [] && FieldOf(line).Some? {
        var fields, list, field := Fields(init).value, FieldList(init), FieldOf(line).value;
        NamedIsKey(fields, list, field.name);
        DistinctNext(list, field);
        if field.name !in fields { MapNext(fields, list, field); }
      }
    }
  }

  // ----- what the pieces of a header block mean -----

  ghost predicate HasBreak(line: string) { exists i :: 0 <= i < |line| - 1 && line[i] == '\r' && line[i + 1] == '\n' }

  function JoinLines(lines: seq<string>): string {
    if lines == [] then "" else if |lines| == 1 then lines[0] else lines[0] + "\r\n" + JoinLines(lines[1..])
  }

  ghost predicate Unbroken(lines: seq<string>) { forall i :: 0 <= i < |lines| ==> !HasBreak(lines[i]) }

  lemma JoinStarts(c: char, line: string, rest: seq<string>)
    ensures JoinLines([[c] + line] + rest) == [c] + JoinLines([line] + rest)
    ensures JoinLines([[]] + rest) == if rest == [] then "" else "\r\n" + JoinLines(rest)
  {
    assert ([[c] + line] + rest)[1..] == rest && ([line] + rest)[1..] == rest;
    assert ([[]] + rest)[1..] == rest;
  }

  lemma BreakFirst(c: char, line: string)
    ensures HasBreak([c] + line) <==> HasBreak(line) || (c == '\r' && line != [] && line[0] == '\n')
  {
    var longer := [c] + line;
    if i :| 0 <= i < |line| - 1 && line[i] == '\r' && line[i + 1] == '\n' {
      assert longer[i + 1] == '\r' && longer[i + 2] == '\n';
    }
    if c == '\r' && line != [] && line[0] == '\n' { assert longer[0] == '\r' && longer[1] == '\n'; }
    if i :| 0 <= i < |longer| - 1 && longer[i] == '\r' && longer[i + 1] == '\n' {
      if i > 0 { assert line[i - 1] == '\r' && line[i] == '\n'; }
    }
  }

  lemma FirstOfJoin(lines: seq<string>)
    requires lines != []
    ensures lines[0] != [] ==> JoinLines(lines) != [] && JoinLines(lines)[0] == lines[0][0]
    ensures lines[0] == [] ==> JoinLines(lines) == [] || JoinLines(lines)[0] == '\r'
  {
  }

  lemma BreakStarts(s: string)
    ensures LINE_END <= s <==> |s| >= 2 && s[0] == '\r' && s[1] == '\n'
  {
    if |s| >= 2 && s[0] == '\r' && s[1] == '\n' { assert s[..2] == LINE_END; }
    if LINE_END <= s { assert s[0] == LINE_END[0] && s[1] == LINE_END[1]; }
  }

  lemma Pieces(s: string)
    requires s != []
    ensures s == [s[0]] + s[1..]
    ensures |s| >= 2 && s[0] == '\r' && s[1] == '\n' ==> s == "\r\n" + s[2..]
  {
  }

  lemma UnbrokenFirst(line: string, rest: seq<string>)
    ensures Unbroken([line] + rest) <==> !HasBreak(line) && Unbroken(rest)
  {
    var lines := [line] + rest;
    assert lines[0] == line;
    assert forall i :: 0 <= i < |rest| ==> lines[i + 1] == rest[i];
  }

  lemma FirstAndRest(lines: seq<string>)
    requires lines != []
    ensures [lines[0]] + lines[1..] == lines
  {
  }

  lemma {:induction false} JoinOfLines(s: string)
    ensures JoinLines(Lines(s)) == s && Unbroken(Lines(s))
    decreases |s|
  {
    if s != [] {
      BreakStarts(s);
      Pieces(s);
      if LINE_END <= s {
        JoinOfLines(s[2..]);
        JoinStarts('\r', [], Lines(s[2..]));
        UnbrokenFirst([], Lines(s[2..]));
      } else {
        var rest := Lines(s[1..]);
        JoinOfLines(s[1..]);
        FirstAndRest(rest);
        JoinStarts(s[0], rest[0], rest[1..]);
        BreakFirst(s[0], rest[0]);
        UnbrokenFirst(rest[0], rest[1..]);
        UnbrokenFirst([s[0]] + rest[0], rest[1..]);
        FirstOfJoin(rest);
      }
    }
  }

  lemma {:induction false} LinesOfJoin(lines: seq<string>)
    requires lines != [] && Unbroken(lines)
    ensures Lines(JoinLines(lines)) == lines
    decreases |lines|, |lines[0]|
  {
    var s, rest := JoinLines(lines), lines[1..];
    assert lines == [lines[0]] + rest;
    if lines[0] == [] {
      JoinStarts('\r', [], rest);
      if rest != [] {
        LinesOfJoin(rest);
        assert s[2..] == JoinLines(rest);
      }
    } else {
      var c, line := lines[0][0], lines[0][1..];
      assert lines[0] == [c] + line;
      var shorter := [line] + rest;
      JoinStarts(c, line, rest);
      BreakFirst(c, line);
      FirstOfJoin(shorter);
      assert s[1..] == JoinLines(shorter);
      LinesOfJoin(shorter);
      assert shorter[1..] == rest;
    }
  }

  /** Splitting into lines undoes joining with line ends, and its pieces contain none. */
  lemma LinesIff(text: string, lines: seq<string>)
    ensures Lines(text) == lines <==> lines != [] && text == JoinLines(lines) && Unbroken(lines)
  {
    JoinOfLines(text);
    if lines != [] && Unbroken(lines) { LinesOfJoin(lines); }
  }

  lemma FindIs(s: string, c: char, n: nat)
    requires n < |s| && s[n] == c && c !in s[..n]
    ensures Find(s, c) == Some(n)
  {
    assert c in s;
    forall i | 0 <= i < n ensures s[i] != c { assert s[..n][i] == s[i]; }
    var m := Find(s, c).value;
    forall i | 0 <= i < m ensures s[i] != c { assert s[..m][i] == s[i]; }
  }

  ghost predicate StatusLine(first: string, n: nat, reason: string) {
    (n == 200 || n == 503) && first == "HTTP/1.1 " + Decimal(n) + " " + reason && reason != "" && AllPrintable(reason)
  }

  lemma Spelled()
    ensures Decimal(200) == "200" && Decimal(503) == "503"
  {
    assert Decimal(20) == "20" && Decimal(50) == "50";
  }

  /** A text that starts with a word and a space, and what follows. */
  lemma FirstWord(word: string, rest: string)
    requires ' ' !in word
    ensures Find(word + " " + rest, ' ') == Some(|word|)
    ensures (word + " " + rest)[..|word|] == word && (word + " " + rest)[|word| + 1..] == rest
  {
    assert (word + " " + rest)[..|word|] == word;
    FindIs(word + " " + rest, ' ', |word|);
  }

  lemma StatusOfLine(code: string, rest: string, whole: bool)
    requires ' ' !in code
    ensures StatusOf("HTTP/1.1" + " " + (if whole then code else code + " " + rest))
         == if code != "200" && code != "503" then Err(Unavailable)
            else if whole || rest == "" || !AllPrintable(rest) then Err(Framing)
            else Ok(if code == "200" then 200 else 503)
  {
    FirstWord("HTTP/1.1", if whole then code else code + " " + rest);
    if !whole { FirstWord(code, rest); }
  }

  lemma SplitAtFirst(s: string, n: nat)
    requires Find(s, ' ') == Some(n)
    ensures s == s[..n] + " " + s[n + 1..] && ' ' !in s[..n]
  {
  }

  /** A status line is accepted exactly as version, 200 or 503, and a printable reason, and the status is the number shown. */
  lemma StatusIff(first: string, n: nat)
    ensures StatusOf(first) == Ok(n) <==> exists reason :: StatusLine(first, n, reason)
  {
    Spelled();
    if StatusOf(first) == Ok(n) {
      var v := Find(first, ' ').value;
      SplitAtFirst(first, v);
      var rest := first[v + 1..];
      var c := Find(rest, ' ').value;
      SplitAtFirst(rest, c);
      Reassociate(rest[..c], rest[c + 1..]);
      assert StatusLine(first, n, rest[c + 1..]);
    }
    if reason :| StatusLine(first, n, reason) {
      Reassociate(Decimal(n), reason);
      StatusOfLine(Decimal(n), reason, false);
    }
  }

  lemma Reassociate(code: string, reason: string)
    ensures "HTTP/1.1 " + code + " " + reason == "HTTP/1.1" + " " + (code + " " + reason)
  {
  }

  function Spaces(n: nat): string { seq(n, _ => ' ') }

  predicate Trimmed(s: string) { s == [] || (s[0] != ' ' && s[|s| - 1] != ' ') }

  lemma {:induction false} TrimLeftIs(s: string) returns (n: nat)
    ensures s == Spaces(n) + TrimLeft(s) && (TrimLeft(s) != [] ==> TrimLeft(s)[0] != ' ')
    decreases |s|
  {
    n := 0;
    if s != [] && s[0] == ' ' {
      var k := TrimLeftIs(s[1..]);
      n := k + 1;
      assert s == [' '] + s[1..];
    }
  }

  lemma {:induction false} TrimRightIs(s: string) returns (n: nat)
    ensures s == TrimRight(s) + Spaces(n) && (TrimRight(s) != [] ==> TrimRight(s)[|TrimRight(s)| - 1] != ' ')
    decreases |s|
  {
    n := 0;
    if s != [] && s[|s| - 1] == ' ' {
      var k := TrimRightIs(s[..|s| - 1]);
      n := k + 1;
      assert s == s[..|s| - 1] + [' '];
    }
  }

  lemma {:induction false} TrimLeftSkips(n: nat, s: string)
    requires s == [] || s[0] != ' '
    ensures TrimLeft(Spaces(n) + s) == s
  {
    if n == 0 {
      assert Spaces(0) + s == s;
    } else {
      assert (Spaces(n) + s)[1..] == Spaces(n - 1) + s;
      TrimLeftSkips(n - 1, s);
    }
  }

  lemma {:induction false} TrimRightSkips(s: string, n: nat)
    requires s == [] || s[|s| - 1] != ' '
    ensures TrimRight(s + Spaces(n)) == s
  {
    if n == 0 {
      assert s + Spaces(0) == s;
    } else {
      assert (s + Spaces(n))[..|s| + n - 1] == s + Spaces(n - 1);
      TrimRightSkips(s, n - 1);
    }
  }

  /** A text with spaces around a trimmed value. */
  ghost predicate Around(s: string, value: string, before: nat, after: nat) {
    s == Spaces(before) + value + Spaces(after) && Trimmed(value)
  }

  /** Trimming yields exactly the value that the text pads with spaces. */
  lemma TrimIff(s: string, value: string)
    ensures Trim(s) == value <==> exists before, after :: Around(s, value, before, after)
  {
    if Trim(s) == value {
      var before := TrimLeftIs(s);
      var after := TrimRightIs(TrimLeft(s));
      assert TrimLeft(s) == value + Spaces(after);
      assert s == Spaces(before) + value + Spaces(after);
      assert Around(s, value, before, after);
    }
    if before, after :| Around(s, value, before, after) {
      TrimAround(value, before, after);
    }
  }

  lemma TrimAround(value: string, before: nat, after: nat)
    requires Trimmed(value)
    ensures Trim(Spaces(before) + value + Spaces(after)) == value
  {
    if value == [] {
      assert Spaces(before) + value + Spaces(after) == Spaces(before + after) + [];
      TrimLeftSkips(before + after, []);
    } else {
      assert Spaces(before) + value + Spaces(after) == Spaces(before) + (value + Spaces(after));
      TrimLeftSkips(before, value + Spaces(after));
      TrimRightSkips(value, after);
    }
  }

  ghost predicate FieldLine(line: string, field: Field, name: string, before: nat, after: nat) {
    && line == name + ":" + (Spaces(before) + field.value + Spaces(after))
    && ValidName(name) && field.name == Lower(name) && Trimmed(field.value) && AllPrintable(field.value)
  }

  lemma ColonAfterName(name: string, rest: string)
    requires ValidName(name)
    ensures Find(name + ":" + rest, ':') == Some(|name|)
    ensures (name + ":" + rest)[..|name|] == name && (name + ":" + rest)[|name| + 1..] == rest
  {
    assert (name + ":" + rest)[..|name|] == name;
    FindIs(name + ":" + rest, ':', |name|);
  }

  lemma FieldReads(line: string, field: Field, name: string, before: nat, after: nat)
    requires FieldLine(line, field, name, before, after)
    ensures FieldOf(line) == Some(field)
  {
    ColonAfterName(name, Spaces(before) + field.value + Spaces(after));
    TrimAround(field.value, before, after);
  }

  lemma FieldPrints(line: string) returns (name: string, before: nat, after: nat)
    requires FieldOf(line).Some?
    ensures FieldLine(line, FieldOf(line).value, name, before, after)
  {
    var colon := Find(line, ':').value;
    name := line[..colon];
    TrimIff(line[colon + 1..], FieldOf(line).value.value);
    before, after :| Around(line[colon + 1..], FieldOf(line).value.value, before, after);
    assert line == name + ":" + line[colon + 1..];
  }

  /** A line is a field exactly as a name, a colon and a printable value with spaces around it; the name is folded to lower case. */
  lemma FieldIff(line: string, field: Field)
    ensures FieldOf(line) == Some(field) <==> exists name, before, after :: FieldLine(line, field, name, before, after)
  {
    if FieldOf(line) == Some(field) {
      var name, before, after := FieldPrints(line);
    }
    if name, before, after :| FieldLine(line, field, name, before, after) {
      FieldReads(line, field, name, before, after);
    }
  }

  /** The same letter in either case, or the same character. */
  predicate SameFolded(c: char, d: char) {
    || c == d
    || ('a' <= c <= 'z' && d as int == c as int - 32) || ('a' <= d <= 'z' && c as int == d as int - 32)
  }

  /** Two names fold alike exactly when they agree letter by letter up to case. */
  lemma LowerIff(s: string, t: string)
    ensures Lower(s) == Lower(t) <==> |s| == |t| && forall i :: 0 <= i < |s| ==> SameFolded(s[i], t[i])
  {
    if Lower(s) == Lower(t) {
      assert |s| == |Lower(s)| == |Lower(t)| == |t|;
      forall i | 0 <= i < |s| ensures SameFolded(s[i], t[i]) { assert Lower(s)[i] == Lower(t)[i]; }
    }
  }

  // ----- the whole header block -----

  ghost predicate Has(list: seq<Field>, name: string, value: string) {
    exists i :: 0 <= i < |list| && list[i] == Field(name, value)
  }

  lemma HasIsEntry(fields: map<string, string>, list: seq<Field>, name: string, value: string)
    requires MapOf(fields, list)
    ensures Has(list, name, value) <==> name in fields && fields[name] == value
  {
    if name in fields && fields[name] == value {
      var i :| 0 <= i < |list| && list[i].name == name;
      assert list[i] == Field(name, value);
    }
  }

  ghost predicate Closes(list: seq<Field>) { exists v :: Has(list, "connection", v) && Lower(v) == "close" }

  /** Not encoded, JSON, closing the connection. */
  ghost predicate PlainJson(list: seq<Field>) {
    && !Named(list, "transfer-encoding") && !Named(list, "content-encoding")
    && (Has(list, "content-type", "application/json") || Has(list, "content-type", "application/json; charset=utf-8"))
    && Closes(list)
  }

  ghost predicate AnnouncesLength(list: seq<Field>, length: nat) {
    1 <= length <= 131_072 && Has(list, "content-length", Decimal(length))
  }

  ghost predicate Tagged(list: seq<Field>, tag: string) { |tag| == 64 && Has(list, "x-sts2-health-attestation", tag) }

  lemma PlainJsonIs(fields: map<string, string>, list: seq<Field>)
    requires MapOf(fields, list)
    ensures PlainJson(list) <==>
      && "transfer-encoding" !in fields && "content-encoding" !in fields && "content-type" in fields
      && (fields["content-type"] == "application/json" || fields["content-type"] == "application/json; charset=utf-8")
      && "connection" in fields && Lower(fields["connection"]) == "close"
  {
    NamedIsKey(fields, list, "transfer-encoding");
    NamedIsKey(fields, list, "content-encoding");
    HasIsEntry(fields, list, "content-type", "application/json");
    HasIsEntry(fields, list, "content-type", "application/json; charset=utf-8");
    if "connection" in fields { HasIsEntry(fields, list, "connection", fields["connection"]); }
    if v :| Has(list, "connection", v) && Lower(v) == "close" { HasIsEntry(fields, list, "connection", v); }
  }

  lemma LengthIs(fields: map<string, string>, list: seq<Field>, length: nat)
    requires MapOf(fields, list)
    ensures AnnouncesLength(list, length) <==>
      "content-length" in fields && LengthOf(fields["content-length"]) == Some(length)
  {
    HasIsEntry(fields, list, "content-length", Decimal(length));
    if "content-length" in fields { LengthIsCanonical(fields["content-length"], length); }
    LengthIsCanonical(Decimal(length), length);
  }

  lemma HeadIff(status: nat, fields: map<string, string>, list: seq<Field>, head: Head)
    requires MapOf(fields, list)
    ensures HeadOf(status, fields) == Ok(head) <==>
      head.status == status && PlainJson(list) && AnnouncesLength(list, head.length) && Tagged(list, head.tag)
  {
    PlainJsonIs(fields, list);
    LengthIs(fields, list, head.length);
    HasIsEntry(fields, list, "x-sts2-health-attestation", head.tag);
  }

  /** The header block that announces a response, written out. */
  ghost predicate Announces(text: string, head: Head) {
    && Ascii(text)
    && var lines := Lines(text);
    && (exists reason :: StatusLine(lines[0], head.status, reason))
    && Acceptable(lines[1..])
    && var list := FieldList(lines[1..]);
    PlainJson(list) && AnnouncesLength(list, head.length) && Tagged(list, head.tag)
  }

  /**
   A header block is accepted, with this status, length and tag, exactly when it
   is ASCII, starts with the status line, its other lines are distinct fields, and
   these announce unencoded JSON on a closing connection, the length in canonical
   spelling and a tag of 64 characters.
   */
  lemma HeadersIff(text: string, head: Head)
    ensures ParseHeaders(text) == Ok(head) <==> Announces(text, head)
  {
    var lines := Lines(text);
    StatusIff(lines[0], head.status);
    FieldsAcceptedIff(lines[1..]);
    if StatusOf(lines[0]).Ok? && Fields(lines[1..]).Ok? {
      HeadIff(StatusOf(lines[0]).value, Fields(lines[1..]).value, FieldList(lines[1..]), head);
    }
  }

  /** The first header block ends at `n`, announces the response, and the body follows to the end of the stream. */
  ghost predicate Extends(stream: string, n: nat, response: Response) {
    && EndsAt(stream, n) && n <= 16_384 && (forall m :: 4 <= m < n ==> !EndsAt(stream, m))
    && Announces(stream[..n], Head(response.status, |response.body|, response.tag)) && response.body == stream[n..]
  }

  /**
   An exchange succeeds exactly when the stream is one header block of at most
   16 KiB, followed by exactly the announced number of body bytes and nothing
   else; the first block end is the one that counts.
   */
  lemma AcceptsExactly(stream: string, response: Response)
    ensures Receive(stream) == Ok(response) <==> exists n: nat :: Extends(stream, n, response)
  {
    if HeaderEnd(stream).Some? { ReceivedIff(stream, HeaderEnd(stream).value, response); }
    if n: nat :| Extends(stream, n, response) { ExtendsFirst(stream, n, response); }
  }

  lemma ExtendsFirst(stream: string, n: nat, response: Response)
    requires Extends(stream, n, response)
    ensures HeaderEnd(stream) == Some(n)
  {
    HeaderEndIsFirst(stream, n);
  }

  lemma ReceiveByParse(stream: string, n: nat, response: Response)
    requires HeaderEnd(stream) == Some(n)
    ensures Receive(stream) == Ok(response) <==>
      && n <= 16_384 && ParseHeaders(stream[..n]) == Ok(Head(response.status, |response.body|, response.tag))
      && response.body == stream[n..]
  {
  }

  lemma ExtendsIff(stream: string, n: nat, response: Response)
    requires HeaderEnd(stream) == Some(n)
    ensures Extends(stream, n, response) <==>
      && n <= 16_384 && Announces(stream[..n], Head(response.status, |response.body|, response.tag))
      && response.body == stream[n..]
  {
    HeaderEndIsFirst(stream, n);
  }

  lemma ReceivedIff(stream: string, n: nat, response: Response)
    requires HeaderEnd(stream) == Some(n)
    ensures Receive(stream) == Ok(response) <==> Extends(stream, n, response)
  {
    ReceiveByParse(stream, n, response);
    ExtendsIff(stream, n, response);
    HeadersIff(stream[..n], Head(response.status, |response.body|, response.tag));
  }

  // ----- what a refusal means -----

  /** The version is right and the word after it is neither 200 nor 503. */
  ghost predicate OtherStatus(first: string, code: string, rest: string) {
    && ' ' !in code && code != "200" && code != "503"
    && (first == "HTTP/1.1" || first == "HTTP/1.1" + " " + code || first == "HTTP/1.1" + " " + (code + " " + rest))
  }

  lemma OtherStatusRefused(first: string, code: string, rest: string)
    requires OtherStatus(first, code, rest)
    ensures StatusOf(first) == Err(Unavailable)
  {
    if first == "HTTP/1.1" {
      assert Find(first, ' ').None?;
    } else if first == "HTTP/1.1" + " " + code {
      StatusOfLine(code, rest, true);
    } else {
      StatusOfLine(code, rest, false);
    }
  }

  /** A status other than 200 and 503 is the only reason for the answer that the gateway is unavailable. */
  lemma UnavailableIff(text: string)
    ensures ParseHeaders(text) == Err(Unavailable) <==>
      Ascii(text) && exists code, rest :: OtherStatus(Lines(text)[0], code, rest)
  {
    var first := Lines(text)[0];
    if StatusOf(first) == Err(Unavailable) { StatusUnavailable(first); }
    if code, rest :| OtherStatus(first, code, rest) { OtherStatusRefused(first, code, rest); }
    StatusDecides(text);
  }

  lemma StatusDecides(text: string)
    ensures ParseHeaders(text) == Err(Unavailable) <==> Ascii(text) && StatusOf(Lines(text)[0]) == Err(Unavailable)
  {
    FieldErrors(Lines(text)[1..]);
  }

  lemma StatusUnavailable(first: string)
    requires StatusOf(first) == Err(Unavailable)
    ensures exists code, rest :: OtherStatus(first, code, rest)
  {
    var version := Find(first, ' ');
    if version.None? {
      assert OtherStatus(first, "", "");
    } else {
      SplitAtFirst(first, version.value);
      var rest := first[version.value + 1..];
      var code := Find(rest, ' ');
      if code.None? {
        assert OtherStatus(first, rest, "");
      } else {
        SplitAtFirst(rest, code.value);
        assert OtherStatus(first, rest[..code.value], rest[code.value + 1..]);
      }
    }
  }

  lemma {:induction false} FieldErrors(lines: seq<string>)
    ensures Fields(lines).Err? ==> Fields(lines).error.Bounds? || Fields(lines).error.Framing?
    decreases |lines|
  {
    if lines != [] { FieldErrors(lines[..|lines| - 1]); }
  }

  /** Everything is in order except the tag. */
  ghost predicate Untagged(text: string, length: nat, status: nat, reason: string) {
    && Ascii(text) && StatusLine(Lines(text)[0], status, reason) && Acceptable(Lines(text)[1..])
    && var list := FieldList(Lines(text)[1..]);
    PlainJson(list) && AnnouncesLength(list, length) && forall tag :: !Tagged(list, tag)
  }

  lemma UntaggedHead(status: nat, fields: map<string, string>, list: seq<Field>)
    requires MapOf(fields, list)
    ensures HeadOf(status, fields) == Err(Authentication) <==>
      PlainJson(list) && (exists length: nat :: AnnouncesLength(list, length)) && forall tag :: !Tagged(list, tag)
  {
    PlainJsonIs(fields, list);
    forall length: nat ensures AnnouncesLength(list, length) <==>
      "content-length" in fields && LengthOf(fields["content-length"]) == Some(length) { LengthIs(fields, list, length); }
    forall tag ensures Has(list, "x-sts2-health-attestation", tag) <==>
      "x-sts2-health-attestation" in fields && fields["x-sts2-health-attestation"] == tag
    {
      HasIsEntry(fields, list, "x-sts2-health-attestation", tag);
    }
    if "content-length" in fields && LengthOf(fields["content-length"]).Some? {
      assert AnnouncesLength(list, LengthOf(fields["content-length"]).value);
    }
    if "x-sts2-health-attestation" in fields && |fields["x-sts2-health-attestation"]| == 64 {
      assert Tagged(list, fields["x-sts2-health-attestation"]);
    }
  }

  /** A missing or misshapen tag on an otherwise acceptable block is the only reason for an authentication refusal. */
  lemma AuthenticationIff(text: string)
    ensures ParseHeaders(text) == Err(Authentication) <==>
      exists length: nat, status: nat, reason :: Untagged(text, length, status, reason)
  {
    var lines := Lines(text);
    FieldErrors(lines[1..]);
    FieldsAcceptedIff(lines[1..]);
    if StatusOf(lines[0]).Ok? && Fields(lines[1..]).Ok? {
      var status, list := StatusOf(lines[0]).value, FieldList(lines[1..]);
      StatusIff(lines[0], status);
      UntaggedHead(status, Fields(lines[1..]).value, list);
      if ParseHeaders(text) == Err(Authentication) {
        var reason :| StatusLine(lines[0], status, reason);
        var length: nat :| AnnouncesLength(list, length);
        assert Untagged(text, length, status, reason);
      }
    }
    if length: nat, status: nat, reason :| Untagged(text, length, status, reason) {
      StatusIff(lines[0], status);
      assert StatusOf(lines[0]) == Ok(status);
    }
  }

  /** A line after 32 acceptable fields. */
  ghost predicate OneTooMany(lines: seq<string>, k: nat) {
    k < |lines| && lines[k] != [] && Acceptable(lines[..k]) && |FieldList(lines[..k])| == 32
  }

  lemma OneTooManyRefused(lines: seq<string>, k: nat)
    requires OneTooMany(lines, k)
    ensures Fields(lines) == Err(Bounds)
  {
    FieldsAcceptedIff(lines[..k]);
    assert lines[..k + 1][..k] == lines[..k];
    FailureStays(lines, k + 1);
  }

  lemma {:induction false} RefusedAfterThirtyTwo(lines: seq<string>) returns (k: nat)
    requires Fields(lines) == Err(Bounds)
    ensures OneTooMany(lines, k)
    decreases |lines|
  {
    var init := lines[..|lines| - 1];
    FieldsAcceptedIff(init);
    if Fields(init).Err? {
      k := RefusedAfterThirtyTwo(init);
      assert init[..k] == lines[..k];
    } else {
      k := |init|;
    }
  }

  /** A length field that is no number in canonical spelling from 1 to the limit. */
  ghost predicate MisstatesLength(list: seq<Field>) {
    PlainJson(list) && Named(list, "content-length") && forall length: nat :: !AnnouncesLength(list, length)
  }

  lemma MisstatedHead(status: nat, fields: map<string, string>, list: seq<Field>)
    requires MapOf(fields, list)
    ensures HeadOf(status, fields) == Err(Bounds) <==> MisstatesLength(list)
  {
    PlainJsonIs(fields, list);
    NamedIsKey(fields, list, "content-length");
    forall length: nat ensures AnnouncesLength(list, length) <==>
      "content-length" in fields && LengthOf(fields["content-length"]) == Some(length) { LengthIs(fields, list, length); }
    if "content-length" in fields && LengthOf(fields["content-length"]).Some? {
      assert AnnouncesLength(list, LengthOf(fields["content-length"]).value);
    }
  }

  /** A block is out of bounds exactly for a 33rd field or a misstated length, after a proper status line. */
  lemma OutOfBoundsIff(text: string)
    ensures ParseHeaders(text) == Err(Bounds) <==>
      && Ascii(text) && (exists status: nat, reason :: StatusLine(Lines(text)[0], status, reason))
      && ((exists k: nat :: OneTooMany(Lines(text)[1..], k))
          || (Acceptable(Lines(text)[1..]) && MisstatesLength(FieldList(Lines(text)[1..]))))
  {
    var first, lines := Lines(text)[0], Lines(text)[1..];
    FieldsAcceptedIff(lines);
    if status: nat, reason :| StatusLine(first, status, reason) { StatusIff(first, status); }
    if StatusOf(first).Ok? { StatusIff(first, StatusOf(first).value); }
    if k: nat :| OneTooMany(lines, k) { OneTooManyRefused(lines, k); }
    if Fields(lines) == Err(Bounds) { var k := RefusedAfterThirtyTwo(lines); }
    if StatusOf(first).Ok? && Fields(lines).Ok? { MisstatedHead(StatusOf(first).value, Fields(lines).value, FieldList(lines)); }
  }

  /** A stream without an acceptable extent: too long or no header block, a block past the limit, or another body length. */
  lemma FramingOfStream(stream: string)
    ensures (forall n: nat :: !EndsAt(stream, n)) ==> Receive(stream) == Err(if |stream| >= 16_384 then Bounds else Framing)
    ensures forall n: nat | EndsAt(stream, n) && (forall m :: 4 <= m < n ==> !EndsAt(stream, m)) ::
      && (n > 16_384 ==> Receive(stream) == Err(Bounds))
      && (n <= 16_384 && ParseHeaders(stream[..n]).Err? ==> Receive(stream) == Err(ParseHeaders(stream[..n]).error))
      && (n <= 16_384 && ParseHeaders(stream[..n]).Ok? && |stream| - n != ParseHeaders(stream[..n]).value.length ==>
            Receive(stream) == Err(Framing))
  {
    if HeaderEnd(stream).Some? { HeaderEndIsFirst(stream, HeaderEnd(stream).value); }
    forall n: nat | EndsAt(stream, n) && (forall m :: 4 <= m < n ==> !EndsAt(stream, m)) ensures HeaderEnd(stream) == Some(n) {
      HeaderEndIsFirst(stream, n);
    }
  }
}
