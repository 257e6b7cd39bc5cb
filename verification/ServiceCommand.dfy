/**
 The fixed Windows service command line: the `CommandLineToArgvW` quoting rules,
 a parser for them, and the strict parser that accepts nothing but its own
 printer's output.
 */
module ServiceCommand {
  import opened Wrappers

  const MAX_COMMAND_LINE_UTF16 := 32_767
  const MAX_EXECUTABLE_CHARS := 32_768
  const MAX_CONFIG_CHARS := 512

  datatype CommandError = BadLength | UnterminatedQuote | WrongShape | UnsafeArgument | NotCanonical

  datatype Command = Command(executable: string, config: string)

  /** The characters with the Unicode property White_Space. */
  predicate IsWhitespace(c: char) {
    var n := c as int;
    || 0x9 <= n <= 0xd || n == 0x20 || n == 0x85 || n == 0xa0 || n == 0x1680 || 0x2000 <= n <= 0x200a
    || n == 0x2028 || n == 0x2029 || n == 0x202f || n == 0x205f || n == 0x3000
  }

  /** What the parser splits at; form feed, for one, is whitespace but no separator. */
  predicate IsSeparator(c: char) {
    c == ' ' || c == '\t' || c == '\n' || c == '\r' || c as int == 0xb
  }

  function Slashes(n: nat): string { seq(n, _ => '\\') }

  // ----- printer -----

  predicate NeedsQuotes(value: string) {
    value == [] || exists i :: 0 <= i < |value| && (IsWhitespace(value[i]) || value[i] == '"')
  }

  /** The quoted form of what is left of a value when `slashes` backslashes are still held back. */
  function QuoteTail(value: string, slashes: nat): string {
    if value == [] then Slashes(2 * slashes) + "\""
    else if value[0] == '\\' then QuoteTail(value[1..], slashes + 1)
    else if value[0] == '"' then Slashes(2 * slashes + 1) + "\"" + QuoteTail(value[1..], 0)
    else Slashes(slashes) + [value[0]] + QuoteTail(value[1..], 0)
  }

  function Quote(value: string): string {
    if NeedsQuotes(value) then "\"" + QuoteTail(value, 0) else value
  }

  method QuoteWindows(value: string) returns (quoted: string)
    ensures quoted == Quote(value)
  {
    var plain := value != [];
    for i := 0 to |value|
      invariant plain <==> value != [] && forall k :: 0 <= k < i ==> !IsWhitespace(value[k]) && value[k] != '"'
    {
      if IsWhitespace(value[i]) || value[i] == '"' { plain := false; }
    }
    if plain { return value; }
    quoted := "\"";
    var slashes := 0;
    for i := 0 to |value|
      invariant quoted + QuoteTail(value[i..], slashes) == "\"" + QuoteTail(value, 0)
    {
      var c := value[i];
      assert value[i..][0] == c && value[i..][1..] == value[i + 1..];
      if c == '\\' {
        slashes := slashes + 1;
      } else if c == '"' {
        quoted := quoted + Slashes(2 * slashes + 1) + [c];
        slashes := 0;
      } else {
        quoted := quoted + Slashes(slashes) + [c];
        slashes := 0;
      }
    }
    assert value[|value|..] == [];
    quoted := quoted + Slashes(2 * slashes) + "\"";
  }

  function Join(words: seq<string>): string {
    if words == [] then "" else if |words| == 1 then words[0] else words[0] + " " + Join(words[1..])
  }

  function QuoteAll(arguments: seq<string>): seq<string> {
    seq(|arguments|, i requires 0 <= i < |arguments| => Quote(arguments[i]))
  }

  function Arguments(command: Command): seq<string> {
    [command.executable, "daemon", "--service", "--config", command.config]
  }

  function Render(command: Command): string {
    Quote(command.executable) + " daemon --service --config " + Quote(command.config)
  }

  // ----- parser -----

  function LeadingSlashes(s: string): (n: nat)
    ensures n <= |s| && s[..n] == Slashes(n) && (n < |s| ==> s[n] != '\\')
  {
    if s == [] || s[0] != '\\' then 0 else 1 + LeadingSlashes(s[1..])
  }

  function SkipSeparators(s: string): (rest: string)
    ensures |rest| <= |s| && (rest != [] ==> !IsSeparator(rest[0]))
  {
    if s != [] && IsSeparator(s[0]) then SkipSeparators(s[1..]) else s
  }

  /** One argument read so far, what is left, and whether a quote is still open. */
  datatype Scan = Scan(argument: string, rest: string, quoted: bool)

  function ScanArgument(s: string, argument: string, quoted: bool): (r: Scan)
    ensures |r.rest| <= |s| && (r.rest != [] ==> IsSeparator(r.rest[0]))
    ensures s != [] && !IsSeparator(s[0]) ==> |r.rest| < |s|
    decreases |s|, 1
  {
    var n := LeadingSlashes(s);
    ScanAfter(n, s[n..], argument, quoted)
  }

  /** What follows a run of `n` backslashes decides what the run means. */
  function ScanAfter(n: nat, t: string, argument: string, quoted: bool): (r: Scan)
    requires t == [] || t[0] != '\\'
    ensures |r.rest| <= |t| && (r.rest != [] ==> IsSeparator(r.rest[0]))
    ensures t != [] && !IsSeparator(t[0]) ==> |r.rest| < |t|
    decreases |t|, 0
  {
    if t == [] then Scan(argument + Slashes(n), [], quoted)
    else if t[0] == '"' then
      if n % 2 == 1 then ScanArgument(t[1..], argument + Slashes(n / 2) + "\"", quoted)
      else if quoted && |t| > 1 && t[1] == '"' then ScanArgument(t[2..], argument + Slashes(n / 2) + "\"", quoted)
      else ScanArgument(t[1..], argument + Slashes(n / 2), !quoted)
    else if !quoted && IsSeparator(t[0]) then Scan(argument + Slashes(n), t, quoted)
    else ScanArgument(t[1..], argument + Slashes(n) + [t[0]], quoted)
  }

  function Split(line: string): Result<seq<string>, CommandError>
    decreases |line|
  {
    var s := SkipSeparators(line);
    if s == [] then Ok([])
    else
      var r := ScanArgument(s, "", false);
      if r.quoted then Err(UnterminatedQuote)
      else
        var more := Split(r.rest);
        if more.Err? then more else Ok([r.argument] + more.value)
  }

  /** The index of the first character at or after `from` that is not a separator. */
  method SkipFrom(line: string, from: nat) returns (index: nat)
    requires from <= |line|
    ensures from <= index <= |line| && line[index..] == SkipSeparators(line[from..])
  {
    index := from;
    while index < |line| && IsSeparator(line[index])
      invariant from <= index <= |line| && SkipSeparators(line[index..]) == SkipSeparators(line[from..])
    {
      assert line[index..][1..] == line[index + 1..];
      index := index + 1;
    }
  }

  method CountSlashes(line: string, from: nat) returns (slashes: nat, index: nat)
    requires from <= |line|
    ensures slashes == LeadingSlashes(line[from..]) && index == from + slashes
  {
    slashes, index := 0, from;
    while index < |line| && line[index] == '\\'
      invariant from <= index <= |line| && index == from + slashes
      invariant slashes + LeadingSlashes(line[index..]) == LeadingSlashes(line[from..])
    {
      assert line[index..][1..] == line[index + 1..];
      slashes, index := slashes + 1, index + 1;
    }
  }

  /** One round of the scanning loop: the character after the backslashes is consumed or ends the argument. */
  method Consume(line: string, slashes: nat, from: nat, argument: string, quoted: bool)
    returns (argument': string, quoted': bool, index: nat, done: bool)
    requires from <= |line| && (from < |line| ==> line[from] != '\\')
    ensures from <= index <= |line|
    ensures done ==> Scan(argument', line[index..], quoted') == ScanAfter(slashes, line[from..], argument, quoted)
    ensures !done ==> from < index && ScanArgument(line[index..], argument', quoted') == ScanAfter(slashes, line[from..], argument, quoted)
  {
    argument', quoted', index, done := argument, quoted, from, false;
    if index == |line| {
      argument' := argument + Slashes(slashes);
      done := true;
      return;
    }
    var c := line[index];
    assert line[from..][0] == c && line[from..][1..] == line[from + 1..];
    if c == '"' {
      argument' := argument + Slashes(slashes / 2);
      if slashes % 2 == 1 {
        argument' := argument' + ['"'];
        index := index + 1;
      } else if quoted && index + 1 < |line| && line[index + 1] == '"' {
        assert line[from..][2..] == line[from + 2..];
        argument' := argument' + ['"'];
        index := index + 2;
      } else {
        quoted' := !quoted;
        index := index + 1;
      }
    } else if !quoted && IsSeparator(c) {
      argument' := argument + Slashes(slashes);
      done := true;
    } else {
      argument' := argument + Slashes(slashes) + [c];
      index := index + 1;
    }
  }

  method ParseArgument(line: string, from: nat) returns (argument: string, quoted: bool, index: nat)
    requires from < |line| && !IsSeparator(line[from])
    ensures from < index <= |line|
    ensures Scan(argument, line[index..], quoted) == ScanArgument(line[from..], "", false)
  {
    var done := false;
    argument, quoted, index := "", false, from;
    while !done
      invariant from <= index <= |line|
      invariant !done ==> ScanArgument(line[index..], argument, quoted) == ScanArgument(line[from..], "", false)
      invariant done ==> Scan(argument, line[index..], quoted) == ScanArgument(line[from..], "", false)
      decreases !done, |line| - index
    {
      var slashes, next := CountSlashes(line, index);
      assert line[index..][slashes..] == line[next..];
      argument, quoted, index, done := Consume(line, slashes, next, argument, quoted);
    }
  }

  /** What the whole line splits into, given the arguments already read and what is left. */
  function Continue(done: seq<string>, rest: string): Result<seq<string>, CommandError> {
    var more := Split(rest);
    if more.Err? then more else Ok(done + more.value)
  }

  lemma ContinueSteps(done: seq<string>, rest: string)
    ensures var s := SkipSeparators(rest);
      && (s == [] ==> Continue(done, rest) == Ok(done))
      && (s != [] ==>
            var r := ScanArgument(s, "", false);
            Continue(done, rest) == if r.quoted then Err(UnterminatedQuote) else Continue(done + [r.argument], r.rest))
  {
    var s := SkipSeparators(rest);
    assert done + [] == done;
    if s != [] {
      var r := ScanArgument(s, "", false);
      if !r.quoted && Split(r.rest).Ok? {
        assert done + ([r.argument] + Split(r.rest).value) == done + [r.argument] + Split(r.rest).value;
      }
    }
  }

  method ParseWindowsArguments(line: string) returns (result: Result<seq<string>, CommandError>)
    ensures result == Split(line)
  {
    var arguments: seq<string> := [];
    var index := 0;
    assert line[0..] == line;
    assert Split(line).Ok? ==> [] + Split(line).value == Split(line).value;
    while index < |line|
      invariant index <= |line| && Continue(arguments, line[index..]) == Split(line)
    {
      ContinueSteps(arguments, line[index..]);
      index := SkipFrom(line, index);
      if index == |line| { return Ok(arguments); }
      var argument, quoted;
      argument, quoted, index := ParseArgument(line, index);
      if quoted { return Err(UnterminatedQuote); }
      arguments := arguments + [argument];
    }
    ContinueSteps(arguments, line[index..]);
    result := Ok(arguments);
  }

  // ----- the parser undoes the printer -----

  /** Where an argument can end: at the end of the line or before a separator. */
  predicate Ends(rest: string) { rest == [] || IsSeparator(rest[0]) }

  lemma {:induction false} SlashesBefore(n: nat, t: string)
    requires t == [] || t[0] != '\\'
    ensures LeadingSlashes(Slashes(n) + t) == n && (Slashes(n) + t)[n..] == t
  {
    if n == 0 {
      assert Slashes(0) + t == t;
    } else {
      assert (Slashes(n) + t)[1..] == Slashes(n - 1) + t;
      SlashesBefore(n - 1, t);
    }
  }

  lemma MoreSlashes(argument: string, n: nat, value: string)
    requires value != [] && value[0] == '\\'
    ensures argument + Slashes(n + 1) + value[1..] == argument + Slashes(n) + value
  {
  }

  lemma EndScans(rest: string, argument: string)
    requires Ends(rest)
    ensures ScanArgument(rest, argument, false) == Scan(argument, rest, false)
  {
    assert argument + Slashes(0) == argument;
  }

  lemma ScanSlashes(n: nat, t: string, argument: string, quoted: bool)
    requires t == [] || t[0] != '\\'
    ensures ScanArgument(Slashes(n) + t, argument, quoted) == ScanAfter(n, t, argument, quoted)
  {
    SlashesBefore(n, t);
  }

  lemma ClosingQuote(slashes: nat, argument: string, rest: string)
    requires Ends(rest)
    ensures ScanAfter(2 * slashes, "\"" + rest, argument, true) == Scan(argument + Slashes(slashes), rest, false)
  {
    var t := "\"" + rest;
    assert t[1..] == rest;
    Even(slashes);
    EndScans(rest, argument + Slashes(slashes));
  }

  lemma Even(n: nat)
    ensures (2 * n) % 2 == 0 && (2 * n) / 2 == n
  {
  }

  lemma QuotedCharacter(slashes: nat, c: char, t: string, argument: string)
    requires c != '\\'
    ensures ScanAfter(if c == '"' then 2 * slashes + 1 else slashes, [c] + t, argument, true)
         == ScanArgument(t, argument + Slashes(slashes) + [c], true)
  {
    assert ([c] + t)[1..] == t;
  }

  lemma QuoteTailSplits(value: string, slashes: nat, rest: string)
    requires value != [] && value[0] != '\\'
    ensures QuoteTail(value, slashes) + rest
         == Slashes(if value[0] == '"' then 2 * slashes + 1 else slashes) + ([value[0]] + (QuoteTail(value[1..], 0) + rest))
  {
  }

  lemma Reassemble(argument: string, slashes: nat, value: string)
    requires value != []
    ensures argument + Slashes(slashes) + [value[0]] + Slashes(0) + value[1..] == argument + Slashes(slashes) + value
  {
  }

  /** Scanning the quoted form of a value, from inside the quotes, yields the value. */
  lemma {:induction false} QuotedScans(value: string, slashes: nat, argument: string, rest: string)
    requires Ends(rest)
    ensures ScanArgument(QuoteTail(value, slashes) + rest, argument, true)
         == Scan(argument + Slashes(slashes) + value, rest, false)
    decreases |value|
  {
    if value == [] {
      assert QuoteTail(value, slashes) + rest == Slashes(2 * slashes) + ("\"" + rest);
      ScanSlashes(2 * slashes, "\"" + rest, argument, true);
      ClosingQuote(slashes, argument, rest);
      assert argument + Slashes(slashes) + value == argument + Slashes(slashes);
    } else if value[0] == '\\' {
      QuotedScans(value[1..], slashes + 1, argument, rest);
      MoreSlashes(argument, slashes, value);
    } else {
      var c, tail := value[0], QuoteTail(value[1..], 0) + rest;
      QuoteTailSplits(value, slashes, rest);
      ScanSlashes(if c == '"' then 2 * slashes + 1 else slashes, [c] + tail, argument, true);
      QuotedCharacter(slashes, c, tail, argument);
      QuotedScans(value[1..], 0, argument + Slashes(slashes) + [c], rest);
      Reassemble(argument, slashes, value);
    }
  }

  predicate Plain(value: string) { forall i :: 0 <= i < |value| ==> !IsWhitespace(value[i]) && value[i] != '"' }

  lemma PlainCharacter(n: nat, c: char, t: string, argument: string)
    requires !IsWhitespace(c) && c != '"' && c != '\\'
    ensures ScanAfter(n, [c] + t, argument, false) == ScanArgument(t, argument + Slashes(n) + [c], false)
  {
    assert ([c] + t)[1..] == t;
  }

  lemma SplitAt(value: string, n: nat, rest: string)
    requires n < |value|
    ensures value == value[..n] + [value[n]] + value[n + 1..]
    ensures value + rest == value[..n] + ([value[n]] + (value[n + 1..] + rest))
  {
  }

  /** A value without whitespace and quotes scans to itself. */
  lemma {:induction false} PlainScans(value: string, argument: string, rest: string)
    requires Plain(value) && Ends(rest)
    ensures ScanArgument(value + rest, argument, false) == Scan(argument + value, rest, false)
    decreases |value|
  {
    var n := LeadingSlashes(value);
    if n == |value| {
      assert value[..n] == value;
      ScanSlashes(n, rest, argument, false);
    } else {
      var c, tail := value[n], value[n + 1..] + rest;
      SplitAt(value, n, rest);
      ScanSlashes(n, [c] + tail, argument, false);
      PlainCharacter(n, c, tail, argument);
      PlainScans(value[n + 1..], argument + Slashes(n) + [c], rest);
      Regroup(argument, Slashes(n), c, value[n + 1..]);
    }
  }

  lemma Regroup(a: string, b: string, c: char, d: string)
    ensures a + b + [c] + d == a + (b + [c] + d)
  {
  }

  lemma QuoteScans(value: string, rest: string)
    requires Ends(rest)
    ensures ScanArgument(Quote(value) + rest, "", false) == Scan(value, rest, false)
    ensures Quote(value) != [] && !IsSeparator(Quote(value)[0])
  {
    if NeedsQuotes(value) {
      var tail := QuoteTail(value, 0) + rest;
      var s := "\"" + tail;
      assert Quote(value) + rest == s;
      assert LeadingSlashes(s) == 0 && s[1..] == tail;
      assert "" + Slashes(0) == "";
      QuotedScans(value, 0, "", rest);
      assert "" + Slashes(0) + value == value;
    } else {
      PlainScans(value, "", rest);
      assert "" + value == value;
    }
  }

  lemma JoinQuoted(arguments: seq<string>)
    requires arguments != []
    ensures |arguments| == 1 ==> Join(QuoteAll(arguments)) == Quote(arguments[0])
    ensures |arguments| > 1 ==> Join(QuoteAll(arguments)) == Quote(arguments[0]) + (" " + Join(QuoteAll(arguments[1..])))
  {
    assert QuoteAll(arguments)[1..] == QuoteAll(arguments[1..]);
  }

  lemma SplitFirst(value: string, rest: string)
    requires Ends(rest)
    ensures Split(Quote(value) + rest) == var more := Split(rest); if more.Err? then more else Ok([value] + more.value)
  {
    QuoteScans(value, rest);
    assert (Quote(value) + rest)[0] == Quote(value)[0];
    assert SkipSeparators(Quote(value) + rest) == Quote(value) + rest;
  }

  lemma SplitSkips(s: string)
    ensures Split(" " + s) == Split(s)
  {
    assert (" " + s)[1..] == s;
    assert SkipSeparators(" " + s) == SkipSeparators(s);
  }

  /** Splitting the quoted and joined form of any list of arguments gives the list back. */
  lemma {:induction false} SplitUndoesQuote(arguments: seq<string>)
    ensures Split(Join(QuoteAll(arguments))) == Ok(arguments)
    decreases |arguments|
  {
    if arguments != [] {
      JoinQuoted(arguments);
      if |arguments| == 1 {
        SplitFirst(arguments[0], []);
        assert Quote(arguments[0]) + [] == Quote(arguments[0]);
        assert [arguments[0]] + [] == arguments;
      } else {
        var more := Join(QuoteAll(arguments[1..]));
        SplitUndoesQuote(arguments[1..]);
        SplitFirst(arguments[0], " " + more);
        SplitSkips(more);
        assert [arguments[0]] + arguments[1..] == arguments;
      }
    }
  }

  // ----- the splitting rules on their own -----

  /** Where a text is cut before a separator, its runs of backslashes and its words are the same with or without what follows. */
  lemma SlashesStay(x: string, t: string)
    requires t != [] && t[0] != '\\'
    ensures LeadingSlashes(x + t) == LeadingSlashes(x)
    ensures (x + t)[LeadingSlashes(x)..] == x[LeadingSlashes(x)..] + t
  {
    var n := LeadingSlashes(x);
    SlashesFirst(x, n, t);
    SlashesBefore(n, x[n..] + t);
  }

  lemma SlashesFirst(x: string, n: nat, t: string)
    requires n <= |x| && x[..n] == Slashes(n)
    ensures x + t == Slashes(n) + (x[n..] + t)
  {
    assert x == x[..n] + x[n..];
  }

  /** A scan goes the same way when a separator and more text follow. */
  ghost predicate SameScan(r: Scan, t: string, longer: Scan) {
    && (r.rest != [] ==> longer == Scan(r.argument, r.rest + t, r.quoted))
    && (r.rest == [] && !r.quoted ==> longer == Scan(r.argument, t, false))
  }

  lemma {:induction false} ScanStays(x: string, t: string, argument: string, quoted: bool)
    requires t != [] && IsSeparator(t[0])
    ensures SameScan(ScanArgument(x, argument, quoted), t, ScanArgument(x + t, argument, quoted))
    decreases |x|, 1
  {
    SlashesStay(x, t);
    ScanAfterStays(LeadingSlashes(x), x[LeadingSlashes(x)..], t, argument, quoted);
  }

  lemma NextStays(u: string, t: string, k: nat)
    requires k <= |u|
    ensures (u + t)[k..] == u[k..] + t
  {
  }

  lemma {:induction false} ScanAfterStays(n: nat, u: string, t: string, argument: string, quoted: bool)
    requires (u == [] || u[0] != '\\') && t != [] && IsSeparator(t[0])
    ensures SameScan(ScanAfter(n, u, argument, quoted), t, ScanAfter(n, u + t, argument, quoted))
    decreases |u|, 0
  {
    if u == [] {
      assert u + t == t;
    } else {
      NextStays(u, t, 1);
      if u[0] == '"' {
        if n % 2 == 1 { ScanStays(u[1..], t, argument + Slashes(n / 2) + "\"", quoted); }
        else if quoted && |u| > 1 && u[1] == '"' {
          NextStays(u, t, 2);
          ScanStays(u[2..], t, argument + Slashes(n / 2) + "\"", quoted);
        } else { ScanStays(u[1..], t, argument + Slashes(n / 2), !quoted); }
      } else if quoted || !IsSeparator(u[0]) {
        ScanStays(u[1..], t, argument + Slashes(n) + [u[0]], quoted);
      }
    }
  }

  lemma {:induction false} SkipStays(x: string, t: string)
    ensures SkipSeparators(x + t) == if SkipSeparators(x) == [] then SkipSeparators(t) else SkipSeparators(x) + t
  {
    if x == [] {
      assert x + t == t;
    } else if IsSeparator(x[0]) {
      NextStays(x, t, 1);
      SkipStays(x[1..], t);
    }
  }

  lemma SplitWord(line: string)
    requires SkipSeparators(line) != []
    ensures var r := ScanArgument(SkipSeparators(line), "", false);
      Split(line) == if r.quoted then Err(UnterminatedQuote)
                     else if Split(r.rest).Err? then Split(r.rest) else Ok([r.argument] + Split(r.rest).value)
  {
  }

  lemma SplitNothing(line: string)
    requires SkipSeparators(line) == []
    ensures Split(line) == Ok([])
  {
  }

  lemma SkippedSplits(t: string, u: string)
    requires SkipSeparators(t) == SkipSeparators(u)
    ensures Split(t) == Split(u)
  {
  }

  lemma {:induction false} SplitBefore(x: string, t: string)
    requires t != [] && IsSeparator(t[0]) && Split(x).Ok?
    ensures Split(x + t) == if Split(t).Err? then Split(t) else Ok(Split(x).value + Split(t).value)
    decreases |x|
  {
    var s := SkipSeparators(x);
    SkipStays(x, t);
    if s == [] {
      SplitNothing(x);
      SkippedSplits(x + t, t);
      if Split(t).Ok? { assert [] + Split(t).value == Split(t).value; }
    } else {
      var r := ScanArgument(s, "", false);
      ScanStays(s, t, "", false);
      SplitWord(x);
      SplitWord(x + t);
      if r.rest != [] {
        SplitBefore(r.rest, t);
        if Split(t).Ok? { Appended(r.argument, Split(r.rest).value, Split(t).value); }
      } else {
        SplitNothing([]);
        if Split(t).Ok? { Appended(r.argument, [], Split(t).value); }
      }
    }
  }

  lemma Appended(first: string, more: seq<string>, last: seq<string>)
    ensures [first] + (more + last) == [first] + more + last && [] + last == last
  {
  }

  /**
   Each of the five separators separates: a line cut at one outside any quoted
   part splits into the arguments before it and the arguments after it.
   */
  lemma SplitsAtSeparators(x: string, c: char, y: string)
    requires (c in " \t\n\r" || c as int == 0xb) && Split(x).Ok?
    ensures Split(x + ([c] + y)) == if Split(y).Err? then Split(y) else Ok(Split(x).value + Split(y).value)
  {
    FiveSeparators(c);
    SplitSkipsAny(c, y);
    SplitBefore(x, [c] + y);
  }

  lemma FiveSeparators(c: char)
    ensures IsSeparator(c) <==> c in " \t\n\r" || c as int == 0xb
  {
  }

  lemma SplitSkipsAny(c: char, s: string)
    requires IsSeparator(c)
    ensures Split([c] + s) == Split(s)
  {
    assert ([c] + s)[1..] == s;
    assert SkipSeparators([c] + s) == SkipSeparators(s);
  }

  predicate QuoteFree(s: string) { '"' !in s }

  /** Nothing else separates: a word without quotes and these five is one argument, backslashes included. */
  lemma WordIsOneArgument(word: string)
    requires word != [] && QuoteFree(word) && forall c | c in word :: c !in " \t\n\r" && c as int != 0xb
    ensures Split(word) == Ok([word])
  {
    assert word[0] in word;
    forall i | 0 <= i < |word| ensures !IsSeparator(word[i]) && word[i] != '"' { assert word[i] in word; }
    WordScans(word, "");
    assert "" + word == word;
    OneScan(word, word);
  }

  lemma {:induction false} WordScans(word: string, argument: string)
    requires forall i :: 0 <= i < |word| ==> !IsSeparator(word[i]) && word[i] != '"'
    ensures ScanArgument(word, argument, false) == Scan(argument + word, [], false)
    decreases |word|
  {
    var n := LeadingSlashes(word);
    if n == |word| {
      assert word == Slashes(n);
    } else {
      SplitAt(word, n, []);
      assert word[n..][1..] == word[n + 1..];
      WordScans(word[n + 1..], argument + Slashes(n) + [word[n]]);
      Regroup(argument, Slashes(n), word[n], word[n + 1..]);
    }
  }

  lemma AllSlashes(text: string)
    ensures text != [] && LeadingSlashes(text) == |text| ==> text[|text| - 1] == '\\'
  {
    if text != [] && LeadingSlashes(text) == |text| { assert text == text[..|text|] == Slashes(|text|); }
  }

  /** Inside quotes everything but quotes and backslashes before them stands for itself. */
  lemma {:induction false} QuotedTextScans(text: string, rest: string, argument: string)
    requires QuoteFree(text) && (text != [] ==> text[|text| - 1] != '\\') && rest != [] && rest[0] == '"'
    ensures ScanArgument(text + rest, argument, true) == ScanArgument(rest, argument + text, true)
    decreases |text|
  {
    var n := LeadingSlashes(text);
    if text == [] {
      assert text + rest == rest && argument + text == argument;
    } else {
      AllSlashes(text);
      SlashesStay(text, rest);
      SplitAt(text, n, rest);
      assert text[n] != '"' by { assert text[n] in text; }
      assert (text[n..] + rest)[1..] == text[n + 1..] + rest;
      QuotedTextScans(text[n + 1..], rest, argument + Slashes(n) + [text[n]]);
      Regroup(argument, Slashes(n), text[n], text[n + 1..]);
    }
  }

  lemma OpeningQuote(rest: string)
    ensures ScanArgument("\"" + rest, "", false) == ScanArgument(rest, "", true)
  {
    var s := "\"" + rest;
    assert LeadingSlashes(s) == 0 && s[1..] == rest;
    assert "" + Slashes(0) == "";
  }

  lemma ClosesHere(argument: string)
    ensures ScanArgument("\"", argument, true) == Scan(argument, [], false)
  {
    ClosingQuote(0, argument, []);
    assert "\"" + [] == "\"" && argument + Slashes(0) == argument;
    ScanSlashes(0, "\"", argument, true);
    assert Slashes(0) + "\"" == "\"";
  }

  lemma DoubledScans(rest: string, argument: string)
    ensures ScanArgument("\"\"" + rest, argument, true) == ScanArgument(rest, argument + "\"", true)
  {
    var s := "\"\"" + rest;
    assert LeadingSlashes(s) == 0 && s[2..] == rest;
    assert argument + Slashes(0) + "\"" == argument + "\"";
  }

  lemma OneScan(s: string, argument: string)
    requires s != [] && !IsSeparator(s[0]) && ScanArgument(s, "", false) == Scan(argument, [], false)
    ensures Split(s) == Ok([argument])
  {
    assert SkipSeparators(s) == s && Split([]) == Ok([]) && [argument] + [] == [argument];
  }

  /** A quoted part is taken as it stands, and a doubled quote inside it stands for one. */
  lemma QuotedParts(a: string, b: string)
    requires QuoteFree(a) && QuoteFree(b)
    requires (a != [] ==> a[|a| - 1] != '\\') && (b != [] ==> b[|b| - 1] != '\\')
    ensures Split("\"" + (a + "\"")) == Ok([a])
    ensures Split("\"" + (a + ("\"\"" + (b + "\"")))) == Ok([a + "\"" + b])
  {
    OpeningQuote(a + "\"");
    QuotedTextScans(a, "\"", "");
    ClosesHere("" + a);
    assert "" + a == a;
    OneScan("\"" + (a + "\""), a);
    var rest := "\"\"" + (b + "\"");
    OpeningQuote(a + rest);
    QuotedTextScans(a, rest, "");
    DoubledScans(b + "\"", a);
    QuotedTextScans(b, "\"", a + "\"");
    ClosesHere(a + "\"" + b);
    OneScan("\"" + (a + rest), a + "\"" + b);
  }

  /** A quote that is never closed is refused. */
  lemma OpenQuoteIsRefused(a: string)
    requires QuoteFree(a)
    ensures Split("\"" + a) == Err(UnterminatedQuote)
  {
    OpeningQuote(a);
    OpenScans(a, "");
  }

  lemma {:induction false} OpenScans(a: string, argument: string)
    requires QuoteFree(a)
    ensures ScanArgument(a, argument, true).quoted
    decreases |a|
  {
    var n := LeadingSlashes(a);
    if n < |a| {
      assert a[n] in a;
      assert a[n..][1..] == a[n + 1..];
      OpenScans(a[n + 1..], argument + Slashes(n) + [a[n]]);
    }
  }

  /** A value is printed as it is exactly when it is not empty and has neither whitespace nor quotes. */
  lemma PrintedPlainIff(value: string)
    ensures Quote(value) == value <==> value != [] && Plain(value)
  {
    if NeedsQuotes(value) {
      QuoteGrows(value, 0);
      assert |Quote(value)| > |value|;
    }
  }

  lemma {:induction false} QuoteGrows(value: string, slashes: nat)
    ensures |QuoteTail(value, slashes)| > |value| + slashes
    decreases |value|
  {
    if value != [] { QuoteGrows(value[1..], if value[0] == '\\' then slashes + 1 else 0); }
  }

  // ----- the service command line -----

  /** Length in UTF-16 code units. */
  function Utf16Length(s: string): nat {
    if s == [] then 0 else (if s[0] as int < 0x10000 then 1 else 2) + Utf16Length(s[1..])
  }

  predicate Safe(argument: string) { '\0' !in argument && '"' !in argument }

  predicate Bounded(command: Command) {
    && 1 <= |command.executable| <= 32_768 && 1 <= |command.config| <= 512
    && Safe(command.executable) && Safe(command.config)
  }

  function ParseCommand(line: string): Result<Command, CommandError> {
    var length := Utf16Length(line);
    if length == 0 || length > MAX_COMMAND_LINE_UTF16 then Err(BadLength)
    else
      var split := Split(line);
      if split.Err? then Err(split.error)
      else
        var arguments := split.value;
        if |arguments| != 5 || arguments[1] != "daemon" || arguments[2] != "--service" || arguments[3] != "--config"
        then Err(WrongShape)
        else if arguments[0] == "" || |arguments[0]| > MAX_EXECUTABLE_CHARS || arguments[4] == ""
                || |arguments[4]| > MAX_CONFIG_CHARS || exists i :: 0 <= i < 5 && !Safe(arguments[i])
        then Err(UnsafeArgument)
        else if Join(QuoteAll(arguments)) != line then Err(NotCanonical)
        else Ok(Command(arguments[0], arguments[4]))
  }

  method ParseServiceCommandLine(line: string) returns (result: Result<Command, CommandError>)
    ensures result == ParseCommand(line)
  {
    var length := Utf16Length(line);
    if length == 0 || length > MAX_COMMAND_LINE_UTF16 { return Err(BadLength); }
    var split := ParseWindowsArguments(line);
    if split.Err? { return Err(split.error); }
    var arguments := split.value;
    if |arguments| != 5 || arguments[1] != "daemon" || arguments[2] != "--service" || arguments[3] != "--config" {
      return Err(WrongShape);
    }
    if arguments[0] == "" || |arguments[0]| > MAX_EXECUTABLE_CHARS || arguments[4] == ""
       || |arguments[4]| > MAX_CONFIG_CHARS || exists i :: 0 <= i < 5 && !Safe(arguments[i])
    {
      return Err(UnsafeArgument);
    }
    if Join(QuoteAll(arguments)) != line { return Err(NotCanonical); }
    result := Ok(Command(arguments[0], arguments[4]));
  }

  lemma FixedWords()
    ensures Quote("daemon") == "daemon" && Quote("--service") == "--service" && Quote("--config") == "--config"
    ensures Safe("daemon") && Safe("--service") && Safe("--config")
  {
    assert Plain("daemon") && Plain("--service") && Plain("--config");
  }

  lemma {:induction false} JoinFive(words: seq<string>)
    requires |words| == 5
    ensures Join(words) == words[0] + " " + (words[1] + " " + (words[2] + " " + (words[3] + " " + words[4])))
  {
    assert Join(words[4..]) == words[4];
    assert words[3..][1..] == words[4..];
    assert Join(words[3..]) == words[3] + " " + words[4];
    assert words[2..][1..] == words[3..];
    assert Join(words[2..]) == words[2] + " " + Join(words[3..]);
    assert words[1..][1..] == words[2..];
    assert Join(words[1..]) == words[1] + " " + Join(words[2..]);
  }

  lemma FixedMiddle(e: string, c: string)
    ensures e + " daemon --service --config " + c == e + " " + ("daemon" + " " + ("--service" + " " + ("--config" + " " + c)))
  {
    assert " daemon --service --config " == " " + "daemon" + " " + "--service" + " " + "--config" + " ";
  }

  lemma RenderIsJoin(command: Command)
    ensures Render(command) == Join(QuoteAll(Arguments(command)))
  {
    FixedWords();
    JoinFive(QuoteAll(Arguments(command)));
    FixedMiddle(Quote(command.executable), Quote(command.config));
  }

  lemma PrintedIsAccepted(command: Command)
    requires Bounded(command) && 1 <= Utf16Length(Render(command)) <= MAX_COMMAND_LINE_UTF16
    ensures ParseCommand(Render(command)) == Ok(command)
  {
    RenderIsJoin(command);
    FixedWords();
    SplitUndoesQuote(Arguments(command));
  }

  lemma AcceptedIsPrinted(line: string)
    requires ParseCommand(line).Ok?
    ensures line == Render(ParseCommand(line).value) && Bounded(ParseCommand(line).value)
    ensures 1 <= Utf16Length(line) <= MAX_COMMAND_LINE_UTF16
  {
    var arguments := Split(line).value;
    assert Safe(arguments[0]) && Safe(arguments[4]);
    assert arguments == Arguments(ParseCommand(line).value);
    RenderIsJoin(ParseCommand(line).value);
  }

  /**
   The service parser accepts exactly the printed form of bounded, quote-free and
   NUL-free commands that fit the length limit, and returns the command printed.
   */
  lemma AcceptsExactlyItsOutput(line: string, command: Command)
    ensures ParseCommand(line) == Ok(command) <==>
      line == Render(command) && Bounded(command) && 1 <= Utf16Length(line) <= 32_767
  {
    if ParseCommand(line) == Ok(command) {
      AcceptedIsPrinted(line);
    } else if line == Render(command) && Bounded(command) && 1 <= Utf16Length(line) <= MAX_COMMAND_LINE_UTF16 {
      PrintedIsAccepted(command);
    }
  }
}
