/** Printing an argument list as a Windows command line. Windows hands a program one string,
    and the program takes it apart by the rules of "Parsing C command-line arguments" in the
    Microsoft C Language Reference; printing must be undone by exactly that parser. */
module WindowsCommandLine {

  const QUOTE := '\"'
  const BACKSLASH := '\\'

  function Backslashes(n: nat): string { seq(n, _ => BACKSLASH) }

  /** The white space of the regular expression class `\s`. */
  predicate IsWhite(c: char) {
    || c == ' ' || c == '\t' || c == '\n' || c == '\r'
    || c == '\U{b}' || c == '\U{c}' || c == '\U{a0}' || c == '\U{1680}'
    || '\U{2000}' <= c <= '\U{200a}'
    || c == '\U{2028}' || c == '\U{2029}' || c == '\U{202f}' || c == '\U{205f}' || c == '\U{3000}' || c == '\U{feff}'
  }

  predicate IsPlain(value: string) {
    value != "" && forall c <- value :: !IsWhite(c) && c != QUOTE
  }

  // ---------------------------------------------------------------------------
  // Printing

  /** The rest of a quoted argument after `pending` backslashes that are not written yet. */
  function QuotedRest(value: string, pending: nat): string {
    if value == "" then Backslashes(2 * pending) + [QUOTE]
    else if value[0] == BACKSLASH then QuotedRest(value[1..], pending + 1)
    else if value[0] == QUOTE then Backslashes(2 * pending + 1) + [QUOTE] + QuotedRest(value[1..], 0)
    else Backslashes(pending) + [value[0]] + QuotedRest(value[1..], 0)
  }

  function Quote(value: string): string {
    if IsPlain(value) then value else [QUOTE] + QuotedRest(value, 0)
  }

  method QuoteArgument(value: string) returns (quoted: string)
    ensures quoted == Quote(value)
  {
    if |value| > 0 && forall c <- value :: !IsWhite(c) && c != QUOTE {
      return value;
    }
    quoted := [QUOTE];
    var pending := 0;
    for i := 0 to |value|
      invariant quoted + QuotedRest(value[i..], pending) == [QUOTE] + QuotedRest(value, 0)
    {
      var c := value[i];
      assert value[i..][0] == c && value[i..][1..] == value[i + 1..];
      if c == BACKSLASH {
        pending := pending + 1;
        continue;
      }
      if c == QUOTE {
        quoted := quoted + (Backslashes(pending * 2 + 1) + [QUOTE]);
        pending := 0;
        continue;
      }
      quoted := quoted + (Backslashes(pending) + [c]);
      pending := 0;
    }
    assert value[|value|..] == "";
    quoted := quoted + (Backslashes(pending * 2) + [QUOTE]);
  }

  function Join(parts: seq<string>): string {
    if parts == [] then ""
    else if |parts| == 1 then parts[0]
    else parts[0] + " " + Join(parts[1..])
  }

  function FormatArguments(args: seq<string>): string {
    Join(seq(|args|, i requires 0 <= i < |args| => Quote(args[i])))
  }

  // ---------------------------------------------------------------------------
  // Parsing, by the published rules

  predicate IsDelimiter(c: char) { c == ' ' || c == '\t' }

  function Parse(line: string): seq<string>
    decreases |line|, 1
  {
    if line == "" then []
    else if IsDelimiter(line[0]) then Parse(line[1..])
    else ParseArgument(line, false, 0, "")
  }

  /** Inside an argument: in a quoted string or not, after `pending` backslashes, with `arg` read. */
  function ParseArgument(line: string, inQuotes: bool, pending: nat, arg: string): seq<string>
    decreases |line|, 0
  {
    if line == "" then
      [arg + Backslashes(pending)]
    else if line[0] == BACKSLASH then
      ParseArgument(line[1..], inQuotes, pending + 1, arg)
    else if line[0] == QUOTE then
      var read := arg + Backslashes(pending / 2);
      if pending % 2 == 1 then ParseArgument(line[1..], inQuotes, 0, read + [QUOTE])
      else if inQuotes && |line| > 1 && line[1] == QUOTE then ParseArgument(line[2..], inQuotes, 0, read + [QUOTE])
      else ParseArgument(line[1..], !inQuotes, 0, read)
    else if IsDelimiter(line[0]) && !inQuotes then
      [arg + Backslashes(pending)] + Parse(line[1..])
    else
      ParseArgument(line[1..], inQuotes, 0, arg + Backslashes(pending) + [line[0]])
  }

  // ---------------------------------------------------------------------------
  // The rules as published

  /** Twice as many backslashes before a quote stand for so many, and the quote opens or closes a quoted
      string; one that closes it right before another quote stands for a quote, with that other one.
      One more backslash makes the quote stand for itself. Backslashes before anything else stand for
      themselves. */
  lemma BackslashRules(n: nat, c: char, rest: string, inQuotes: bool, arg: string)
    requires c != BACKSLASH
    ensures c == QUOTE && !(inQuotes && rest != "" && rest[0] == QUOTE) ==>
      ParseArgument(Backslashes(2 * n) + [c] + rest, inQuotes, 0, arg)
      == ParseArgument(rest, !inQuotes, 0, arg + Backslashes(n))
    ensures c == QUOTE && inQuotes && rest != "" && rest[0] == QUOTE ==>
      ParseArgument(Backslashes(2 * n) + [c] + rest, inQuotes, 0, arg)
      == ParseArgument(rest[1..], inQuotes, 0, arg + Backslashes(n) + "\"")
    ensures c == QUOTE ==>
      ParseArgument(Backslashes(2 * n + 1) + [c] + rest, inQuotes, 0, arg)
      == ParseArgument(rest, inQuotes, 0, arg + Backslashes(n) + "\"")
    ensures c != QUOTE && (inQuotes || (c != ' ' && c != '\t')) ==>
      ParseArgument(Backslashes(n) + [c] + rest, inQuotes, 0, arg)
      == ParseArgument(rest, inQuotes, 0, arg + Backslashes(n) + [c])
    ensures !inQuotes && (c == ' ' || c == '\t') ==>
      ParseArgument(Backslashes(n) + [c] + rest, inQuotes, 0, arg) == [arg + Backslashes(n)] + Parse(rest)
  {
    RuleAfterBackslashes(2 * n, c, rest, inQuotes, arg);
    RuleAfterBackslashes(2 * n + 1, c, rest, inQuotes, arg);
    RuleAfterBackslashes(n, c, rest, inQuotes, arg);
    assert ([c] + rest)[1..] == rest;
    assert rest != "" ==> ([c] + rest)[2..] == rest[1..];
    assert c == QUOTE ==> [QUOTE] == "\"";
    hide Backslashes;
  }

  lemma RuleAfterBackslashes(n: nat, c: char, rest: string, inQuotes: bool, arg: string)
    ensures ParseArgument(Backslashes(n) + [c] + rest, inQuotes, 0, arg) == ParseArgument([c] + rest, inQuotes, n, arg)
  {
    ReadBackslashes(n, [c] + rest, inQuotes, 0, arg);
    assert Backslashes(n) + [c] + rest == Backslashes(n) + ([c] + rest);
  }

  /** Between arguments blanks are skipped, and the end of the line ends the last one. */
  lemma BlankRules(rest: string, inQuotes: bool, n: nat, arg: string)
    ensures Parse(" " + rest) == Parse(rest) && Parse("\t" + rest) == Parse(rest) && Parse("") == []
    ensures ParseArgument(Backslashes(n), inQuotes, 0, arg) == [arg + Backslashes(n)]
  {
    assert (" " + rest)[1..] == rest && ("\t" + rest)[1..] == rest;
    ReadBackslashes(n, "", inQuotes, 0, arg);
    assert Backslashes(n) + "" == Backslashes(n);
  }

  lemma WhiteSpaceIs(c: char)
    ensures IsWhite(c) <==>
      var n := c as int;
      9 <= n <= 13 || n == 32 || n == 0xA0 || n == 0x1680 || 0x2000 <= n <= 0x200A || n == 0x2028 || n == 0x2029
      || n == 0x202F || n == 0x205F || n == 0x3000 || n == 0xFEFF
  {
  }

  /** Only arguments that need quotes get them. */
  lemma QuotesWhereNeeded(value: string)
    ensures value != "" && (forall c <- value :: c != QUOTE && !IsWhite(c)) ==> Quote(value) == value
    ensures value == "" || (exists c :: c in value && (c == QUOTE || c == ' ' || c == '\t' || c == '\n')) ==>
      |Quote(value)| >= 2 && Quote(value)[0] == QUOTE && Quote(value) != value
  {
    QuotedIsLonger(value, 0);
    if !IsPlain(value) {
      assert |Quote(value)| > |value|;
    }
  }

  lemma {:induction false} QuotedIsLonger(value: string, pending: nat)
    ensures |QuotedRest(value, pending)| >= |value| + pending + 1
    decreases |value|
  {
    if value != "" {
      QuotedIsLonger(value[1..], 0);
      QuotedIsLonger(value[1..], pending + 1);
    }
  }

  // ---------------------------------------------------------------------------
  // Parsing undoes printing

  predicate EndsArgument(rest: string) { rest == "" || rest[0] == ' ' }

  lemma {:induction false} ReadBackslashes(n: nat, line: string, inQuotes: bool, pending: nat, arg: string)
    ensures ParseArgument(Backslashes(n) + line, inQuotes, pending, arg)
         == ParseArgument(line, inQuotes, pending + n, arg)
  {
    if n == 0 {
      assert Backslashes(0) + line == line;
    } else {
      var whole := Backslashes(n) + line;
      assert whole[0] == BACKSLASH && whole[1..] == Backslashes(n - 1) + line;
      ReadBackslashes(n - 1, line, inQuotes, pending + 1, arg);
    }
  }

  lemma ParseEscapedQuote(pending: nat, arg: string, tail: string)
    ensures ParseArgument(Backslashes(2 * pending + 1) + [QUOTE] + tail, true, 0, arg)
         == ParseArgument(tail, true, 0, arg + Backslashes(pending) + [QUOTE])
  {
    var k, line := 2 * pending + 1, [QUOTE] + tail;
    assert Backslashes(k) + [QUOTE] + tail == Backslashes(k) + line;
    ReadBackslashes(k, line, true, 0, arg);
    assert line[1..] == tail;
    assert k % 2 == 1 && k / 2 == pending;
  }

  lemma ParseOrdinary(c: char, pending: nat, arg: string, tail: string)
    requires c != QUOTE && c != BACKSLASH
    ensures ParseArgument(Backslashes(pending) + [c] + tail, true, 0, arg)
         == ParseArgument(tail, true, 0, arg + Backslashes(pending) + [c])
  {
    var line := [c] + tail;
    assert Backslashes(pending) + [c] + tail == Backslashes(pending) + line;
    ReadBackslashes(pending, line, true, 0, arg);
    assert line[1..] == tail;
  }

  lemma ParseClosingQuote(pending: nat, arg: string, rest: string)
    requires EndsArgument(rest)
    ensures ParseArgument(Backslashes(2 * pending) + [QUOTE] + rest, true, 0, arg)
         == ParseArgument(rest, false, 0, arg + Backslashes(pending))
  {
    var k, line := 2 * pending, [QUOTE] + rest;
    assert Backslashes(k) + [QUOTE] + rest == Backslashes(k) + line;
    ReadBackslashes(k, line, true, 0, arg);
    assert line[1..] == rest;
    assert k % 2 == 0 && k / 2 == pending;
  }

  lemma {:induction false} ParseQuotedRest(value: string, pending: nat, arg: string, rest: string)
    requires EndsArgument(rest)
    ensures ParseArgument(QuotedRest(value, pending) + rest, true, 0, arg)
         == ParseArgument(rest, false, 0, arg + Backslashes(pending) + value)
  {
    hide ParseArgument;
    var whole := arg + Backslashes(pending) + value;
    if value == "" {
      ParseClosingQuote(pending, arg, rest);
      assert whole == arg + Backslashes(pending);
    } else if value[0] == BACKSLASH {
      ParseQuotedRest(value[1..], pending + 1, arg, rest);
      assert whole == arg + Backslashes(pending + 1) + value[1..];
    } else if value[0] == QUOTE {
      var tail := QuotedRest(value[1..], 0) + rest;
      assert QuotedRest(value, pending) + rest == Backslashes(2 * pending + 1) + [QUOTE] + tail;
      ParseEscapedQuote(pending, arg, tail);
      var read := arg + Backslashes(pending) + [QUOTE];
      ParseQuotedRest(value[1..], 0, read, rest);
      assert whole == read + Backslashes(0) + value[1..];
    } else {
      var tail := QuotedRest(value[1..], 0) + rest;
      assert QuotedRest(value, pending) + rest == Backslashes(pending) + [value[0]] + tail;
      ParseOrdinary(value[0], pending, arg, tail);
      var read := arg + Backslashes(pending) + [value[0]];
      ParseQuotedRest(value[1..], 0, read, rest);
      assert whole == read + Backslashes(0) + value[1..];
    }
  }

  lemma {:induction false} ParsePlain(value: string, pending: nat, arg: string, rest: string)
    requires EndsArgument(rest)
    requires forall c <- value :: !IsWhite(c) && c != QUOTE
    ensures ParseArgument(value + rest, false, pending, arg)
         == ParseArgument(rest, false, 0, arg + Backslashes(pending) + value)
  {
    if value == "" {
      assert value + rest == rest;
      assert arg + Backslashes(pending) + value + Backslashes(0) == arg + Backslashes(pending);
    } else {
      assert value[0] in value;
      var line := value + rest;
      assert line[0] == value[0] && line[1..] == value[1..] + rest;
      if value[0] == BACKSLASH {
        ParsePlain(value[1..], pending + 1, arg, rest);
        assert arg + Backslashes(pending + 1) + value[1..] == arg + Backslashes(pending) + value;
      } else {
        assert value[0] in value && !IsDelimiter(value[0]);
        var read := arg + Backslashes(pending) + [value[0]];
        ParsePlain(value[1..], 0, read, rest);
        assert read + Backslashes(0) + value[1..] == arg + Backslashes(pending) + value;
      }
    }
  }

  /** One printed argument is read back whole, whatever argument follows it. */
  lemma ParseOne(value: string, rest: string)
    requires EndsArgument(rest)
    ensures Parse(Quote(value) + rest) == [value] + (if rest == "" then [] else Parse(rest[1..]))
  {
    var line := Quote(value) + rest;
    assert Backslashes(0) == "" && "" + Backslashes(0) + value == value && value + "" == value;
    if IsPlain(value) {
      assert value[0] in value && line[0] == value[0] && !IsDelimiter(line[0]);
      ParsePlain(value, 0, "", rest);
    } else {
      OpenQuote(value, rest);
      ParseQuotedRest(value, 0, "", rest);
    }
  }

  lemma OpenQuote(value: string, rest: string)
    requires !IsPlain(value)
    ensures Parse(Quote(value) + rest) == ParseArgument(QuotedRest(value, 0) + rest, true, 0, "")
  {
    hide QuotedRest, IsPlain;
    var line := Quote(value) + rest;
    assert line[0] == QUOTE && line[1..] == QuotedRest(value, 0) + rest;
    assert "" + Backslashes(0) == "";
  }

  lemma FormatSplits(args: seq<string>)
    requires |args| > 1
    ensures FormatArguments(args) == Quote(args[0]) + (" " + FormatArguments(args[1..]))
  {
    var tail := args[1..];
    var parts := seq(|args|, i requires 0 <= i < |args| => Quote(args[i]));
    assert parts[1..] == seq(|tail|, i requires 0 <= i < |tail| => Quote(tail[i]));
  }

  /** Whatever the arguments are, the parser returns exactly the list that was printed. */
  lemma {:induction false} ParseUndoesFormat(args: seq<string>)
    ensures Parse(FormatArguments(args)) == args
  {
    hide Quote, ParseArgument;
    if |args| == 1 {
      assert Quote(args[0]) + "" == FormatArguments(args);
      ParseOne(args[0], "");
    } else if |args| > 1 {
      hide Parse, FormatArguments;
      var tail := args[1..];
      var rest := " " + FormatArguments(tail);
      FormatSplits(args);
      ParseOne(args[0], rest);
      assert rest[1..] == FormatArguments(tail);
      ParseUndoesFormat(tail);
      assert [args[0]] + tail == args;
    }
  }

  /** So no two argument lists print alike. */
  lemma FormatIsInjective(left: seq<string>, right: seq<string>)
    requires FormatArguments(left) == FormatArguments(right)
    ensures left == right
  {
    ParseUndoesFormat(left);
    ParseUndoesFormat(right);
  }
}
