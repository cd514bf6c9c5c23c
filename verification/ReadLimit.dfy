/** How much of a detached verification's result file may be read. The file holds every command's
    retained output as JSON strings; the limit must leave room for the worst such encoding. */
module ReadLimit {
  import opened Wrappers

  import opened Utf8
  import Accumulator = OutputAccumulator

  // ---------------------------------------------------------------------------
  // JSON strings, by section 7 of RFC 8259, escaping only what must be escaped

  function HexDigit(n: nat): Byte
    requires n < 16
  {
    if n < 10 then 0x30 + n else 0x57 + n
  }

  function ShortEscape(c: Scalar): (e: int)
    ensures e == 0 || 0 < e < 0x80
  {
    if c == 0x22 || c == 0x5C then c
    else if c == 0x08 then 0x62      // \b
    else if c == 0x0C then 0x66      // \f
    else if c == 0x0A then 0x6E      // \n
    else if c == 0x0D then 0x72      // \r
    else if c == 0x09 then 0x74      // \t
    else 0
  }

  function JsonCharacter(c: Scalar): (s: seq<Byte>)
    ensures 1 <= |s| <= 6
  {
    var e: int := ShortEscape(c);
    if e != 0 then [0x5C, e]
    else if c < 0x20 then [0x5C, 0x75, 0x30, 0x30, HexDigit(c / 16), HexDigit(c % 16)]
    else EncodeScalar(c)
  }

  function JsonCharacters(text: seq<Scalar>): seq<Byte> {
    if text == [] then [] else JsonCharacter(text[0]) + JsonCharacters(text[1..])
  }

  function JsonString(text: seq<Scalar>): seq<Byte> { [0x22] + JsonCharacters(text) + [0x22] }

  // Reading such a string again

  function HexValue(b: Byte): int {
    if 0x30 <= b <= 0x39 then b as int - 0x30 else if 0x61 <= b <= 0x66 then b as int - 0x57 else b as int - 0x37
  }

  function Unescaped(b: Byte): int {
    if b == 0x62 then 0x08
    else if b == 0x66 then 0x0C
    else if b == 0x6E then 0x0A
    else if b == 0x72 then 0x0D
    else if b == 0x74 then 0x09
    else b
  }

  /** The bytes that the inside of a JSON string stands for, as far as escapes of single bytes go. */
  function ReadCharacters(s: seq<Byte>): seq<int> {
    if s == [] then []
    else if s[0] == 0x5C && |s| >= 6 && s[1] == 0x75 then
      [HexValue(s[4]) * 16 + HexValue(s[5])] + ReadCharacters(s[6..])
    else if s[0] == 0x5C && |s| >= 2 then [Unescaped(s[1])] + ReadCharacters(s[2..])
    else [s[0] as int] + ReadCharacters(s[1..])
  }

  /** Reading the string again gives the text's encoding: every escape stands for what it replaces. */
  lemma {:induction false} JsonReadsBack(text: seq<Scalar>)
    ensures ReadCharacters(JsonCharacters(text)) == Encode(text)
    decreases |text|
  {
    if text != [] {
      JsonReadsBack(text[1..]);
      CharacterReadsBack(text[0], JsonCharacters(text[1..]));
    }
  }

  lemma CharacterReadsBack(c: Scalar, rest: seq<Byte>)
    ensures ReadCharacters(JsonCharacter(c) + rest) == EncodeScalar(c) + ReadCharacters(rest)
  {
    var s := JsonCharacter(c) + rest;
    var e: int := ShortEscape(c);
    if e != 0 {
      assert s[0] == 0x5C && s[1] == e && s[2..] == rest;
      assert EncodeScalar(c) == [Unescaped(s[1])];
    } else if c < 0x20 {
      assert s[0] == 0x5C && s[1] == 0x75 && s[6..] == rest;
      assert HexValue(s[4]) == c / 16 && HexValue(s[5]) == c % 16;
    } else {
      assert JsonCharacter(c) == EncodeScalar(c);
      assert forall i :: 0 <= i < |EncodeScalar(c)| ==> EncodeScalar(c)[i] != 0x5C;
      PlainBytesReadBack(EncodeScalar(c), rest);
    }
  }

  lemma {:induction false} PlainBytesReadBack(bytes: seq<Byte>, rest: seq<Byte>)
    requires forall i :: 0 <= i < |bytes| ==> bytes[i] != 0x5C
    ensures ReadCharacters(bytes + rest) == bytes + ReadCharacters(rest)
    decreases |bytes|
  {
    hide ReadCharacters;
    if bytes == [] {
      assert bytes + rest == rest;
    } else {
      var b, more := bytes[0], bytes[1..];
      assert bytes == [b] + more;
      assert [b] + more + rest == [b] + (more + rest);
      PlainByteReadsBack(b, more + rest);
      PlainBytesReadBack(more, rest);
      JoinsUp(b, more, ReadCharacters(rest));
    }
  }

  lemma JoinsUp(b: int, more: seq<int>, rest: seq<int>)
    ensures [b] + (more + rest) == [b] + more + rest
  {
  }

  lemma PlainByteReadsBack(b: Byte, rest: seq<Byte>)
    requires b != 0x5C
    ensures ReadCharacters([b] + rest) == [b as int] + ReadCharacters(rest)
  {
    assert ([b] + rest)[1..] == rest;
  }

  lemma {:induction false} AtMostSixBytesEach(text: seq<Scalar>)
    ensures |JsonCharacters(text)| <= 6 * |text|
    decreases |text|
  {
    if text != [] {
      AtMostSixBytesEach(text[1..]);
    }
  }

  // ---------------------------------------------------------------------------
  // The limit

  datatype Command = Command(maxStdoutBytes: Option<nat>, maxStderrBytes: Option<nat>)

  const DEFAULT_MAX_BYTES: nat := 2 * 1024 * 1024
  const READ_LIMIT_FLOOR: nat := 8 * 1024 * 1024

  function Budget(limit: Option<nat>): nat { if limit.Some? then limit.value else DEFAULT_MAX_BYTES }

  function RetainedBudget(commands: seq<Command>): nat {
    if commands == [] then 0
    else Budget(commands[0].maxStdoutBytes) + Budget(commands[0].maxStderrBytes) + RetainedBudget(commands[1..])
  }

  function ReadLimitBytes(commands: seq<Command>): Option<nat> {
    if commands == [] then None
    else
      Some(if READ_LIMIT_FLOOR > Allowance(commands) then READ_LIMIT_FLOOR else Allowance(commands))
  }

  function Allowance(commands: seq<Command>): nat {
    RetainedBudget(commands) * 6 + (1_048_576 + |commands| * 131_072)
  }

  /** Each further command raises the allowance by six times its two budgets, two megabytes each where
      none is given, and 128 kilobytes; the limit is no less than eight megabytes. */
  lemma LimitIsExactly(command: Command, commands: seq<Command>)
    ensures ReadLimitBytes([]) == None
    ensures var stdout := if command.maxStdoutBytes.Some? then command.maxStdoutBytes.value else 2_097_152;
      var stderr := if command.maxStderrBytes.Some? then command.maxStderrBytes.value else 2_097_152;
      && Allowance([command] + commands) == Allowance(commands) + 6 * (stdout + stderr) + 131_072
      && Allowance([]) == 1_048_576
    ensures ReadLimitBytes([command] + commands) ==
      Some(if Allowance([command] + commands) > 8_388_608 then Allowance([command] + commands) else 8_388_608)
  {
    assert ([command] + commands)[1..] == commands;
  }

  // ---------------------------------------------------------------------------
  // The limit is enough

  const MAX_SAFE_INTEGER: nat := 9_007_199_254_740_991

  lemma {:induction false} FewDigits(n: nat, k: nat, bound: nat)
    requires k >= 1 && bound == PowerOfTen(k) && n < bound
    ensures |Accumulator.Digits(n)| <= k
    decreases k
  {
    if n >= 10 {
      assert k > 1;
      FewDigits(n / 10, k - 1, PowerOfTen(k - 1));
    }
  }

  function PowerOfTen(k: nat): nat { if k == 0 then 1 else 10 * PowerOfTen(k - 1) }

  lemma SafeIntegersAreShort(n: nat)
    requires n <= MAX_SAFE_INTEGER
    ensures |Accumulator.Digits(n)| <= 16
  {
    assert PowerOfTen(16) == 1_0000_0000_0000_0000 by {
      assert PowerOfTen(4) == 1_0000;
      assert PowerOfTen(8) == 1_0000_0000;
      assert PowerOfTen(12) == 1_0000_0000_0000;
    }
    FewDigits(n, 16, PowerOfTen(16));
  }

  lemma MarkersAreShort(omitted: nat, total: nat, maxBytes: nat)
    requires omitted <= total <= MAX_SAFE_INTEGER && maxBytes <= MAX_SAFE_INTEGER
    ensures |Accumulator.Marker(omitted, total, maxBytes)| <= 100
  {
    SafeIntegersAreShort(omitted);
    SafeIntegersAreShort(total);
    SafeIntegersAreShort(maxBytes);
  }

  /** One captured stream takes at most six bytes for each byte of its budget, and a little more. */
  lemma StreamFits(maxBytes: nat, all: seq<Byte>)
    requires |all| <= MAX_SAFE_INTEGER
    ensures |JsonString(Accumulator.Text(maxBytes, all))| <= 6 * maxBytes + 602
  {
    match Accumulator.Captured(maxBytes, all)
    case Whole(bytes) =>
      DecodedIsNoLonger(bytes);
      AtMostSixBytesEach(Decode(bytes));
    case Ends(head, omitted, tail) =>
      var marker := Accumulator.Marker(omitted, |all|, maxBytes);
      DecodedIsNoLonger(head);
      DecodedIsNoLonger(tail);
      MarkersAreShort(omitted, |all|, maxBytes);
      AtMostSixBytesEach(Decode(head) + marker + Decode(tail));
  }

  /** What one command printed on its two streams. */
  datatype Printed = Printed(stdout: seq<Byte>, stderr: seq<Byte>)

  predicate IsCountable(p: Printed) { |p.stdout| <= MAX_SAFE_INTEGER && |p.stderr| <= MAX_SAFE_INTEGER }

  function EncodedOutput(command: Command, printed: Printed): nat {
    |JsonString(Accumulator.Text(Budget(command.maxStdoutBytes), printed.stdout))|
    + |JsonString(Accumulator.Text(Budget(command.maxStderrBytes), printed.stderr))|
  }

  function EncodedOutputs(commands: seq<Command>, printed: seq<Printed>): nat
    requires |commands| == |printed|
  {
    if commands == [] then 0
    else EncodedOutput(commands[0], printed[0]) + EncodedOutputs(commands[1..], printed[1..])
  }

  lemma {:induction false} OutputsFit(commands: seq<Command>, printed: seq<Printed>)
    requires |commands| == |printed| && forall p <- printed :: IsCountable(p)
    ensures EncodedOutputs(commands, printed) <= 6 * RetainedBudget(commands) + 1204 * |commands|
    decreases |commands|
  {
    if commands != [] {
      assert printed[0] in printed;
      StreamFits(Budget(commands[0].maxStdoutBytes), printed[0].stdout);
      StreamFits(Budget(commands[0].maxStderrBytes), printed[0].stderr);
      OutputsFit(commands[1..], printed[1..]);
    }
  }

  /** Whatever the commands print, their outputs fit the limit, and over a megabyte is left for the
      rest of the result. */
  lemma OutputFitsReadLimit(commands: seq<Command>, printed: seq<Printed>)
    requires |commands| == |printed| && commands != [] && forall p <- printed :: IsCountable(p)
    ensures ReadLimitBytes(commands).Some?
    ensures EncodedOutputs(commands, printed) + 1_048_576 <= ReadLimitBytes(commands).value
    ensures ReadLimitBytes(commands).value >= READ_LIMIT_FLOOR
  {
    OutputsFit(commands, printed);
  }

  // ---------------------------------------------------------------------------
  // And not by accident

  function Zeros(n: nat): (z: seq<Byte>) { seq(n, i => 0) }

  lemma {:induction false} ZerosDecode(n: nat)
    ensures PushAll(READY, Zeros(n)) == Pushed(READY, seq(n, i => 0))
    ensures |JsonCharacters(seq(n, i => 0))| == 6 * n
  {
    if n > 0 {
      ZerosDecode(n - 1);
      assert Zeros(n)[1..] == Zeros(n - 1);
      var text: seq<Scalar> := seq(n, i => 0);
      assert text[1..] == seq(n - 1, i => 0);
      assert [0] + text[1..] == text;
    }
  }

  /** The factor six cannot be lowered: some output of every size within its budget needs all of it. */
  lemma SixIsNeeded(maxBytes: nat)
    ensures |JsonString(Accumulator.Text(maxBytes, Zeros(maxBytes)))| == 6 * maxBytes + 2
  {
    ZerosDecode(maxBytes);
    assert Decode(Zeros(maxBytes)) == seq(maxBytes, i => 0);
  }
}
