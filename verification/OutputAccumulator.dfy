/** Capturing one output stream of a command in bounded memory: all of it while it fits, and
    otherwise its beginning and its end around a marker that tells how much is missing. */
module OutputAccumulator {
  import opened Utf8
  import opened FailurePatterns

  // ---------------------------------------------------------------------------
  // What a whole stream is reduced to

  function HeadLimit(maxBytes: nat): nat { maxBytes / 2 }

  function TailLimit(maxBytes: nat): nat { maxBytes - HeadLimit(maxBytes) }

  datatype Capture =
    | Whole(bytes: seq<Byte>)
    | Ends(head: seq<Byte>, omitted: nat, tail: seq<Byte>)

  function Captured(maxBytes: nat, all: seq<Byte>): Capture {
    if |all| <= maxBytes then Whole(all)
    else Ends(all[..HeadLimit(maxBytes)], |all| - maxBytes, all[|all| - TailLimit(maxBytes)..])
  }

  /** Nothing is lost unannounced: the two ends do not overlap, fill the budget exactly, and the
      bytes between them are as many as the marker says. */
  lemma CaptureAccountsForEveryByte(maxBytes: nat, all: seq<Byte>)
    ensures match Captured(maxBytes, all)
            case Whole(bytes) => bytes == all && |all| <= maxBytes
            case Ends(head, omitted, tail) =>
              && |head| + |tail| == maxBytes && |tail| - |head| == maxBytes % 2
              && exists middle | |middle| == omitted && omitted > 0 :: all == head + middle + tail
  {
    if |all| > maxBytes {
      var middle := all[HeadLimit(maxBytes)..|all| - TailLimit(maxBytes)];
      assert all == Captured(maxBytes, all).head + middle + Captured(maxBytes, all).tail;
    }
  }

  function Digits(n: nat): (d: seq<Scalar>)
    ensures |d| >= 1
  {
    if n < 10 then [0x30 + n] else Digits(n / 10) + [0x30 + n % 10]
  }

  function NumberOf(digits: seq<Scalar>): int {
    if digits == [] then 0
    else
      var last: int := digits[|digits| - 1];
      NumberOf(digits[..|digits| - 1]) * 10 + last - 0x30
  }

  lemma {:induction false} DigitsReadBack(n: nat)
    ensures NumberOf(Digits(n)) == n
    ensures forall d <- Digits(n) :: 0x30 <= d <= 0x39
    decreases n
  {
    if n >= 10 {
      DigitsReadBack(n / 10);
      assert Digits(n)[..|Digits(n)| - 1] == Digits(n / 10);
    }
  }

  function Ascii(s: string): (t: seq<Scalar>)
    ensures |t| == |s|
  {
    seq(|s|, i requires 0 <= i < |s| => s[i] as int)
  }

  function Marker(omitted: nat, total: nat, maxBytes: nat): seq<Scalar> {
    Ascii("\n[agent-harness truncated ") + Digits(omitted) + Ascii(" byte") + Ascii(if omitted == 1 then "" else "s")
    + Ascii("; original=") + Digits(total) + Ascii("; max=") + Digits(maxBytes) + Ascii("]\n")
  }

  /** The text reported for a stream. */
  function Text(maxBytes: nat, all: seq<Byte>): seq<Scalar> {
    match Captured(maxBytes, all)
    case Whole(bytes) => Decode(bytes)
    case Ends(head, omitted, tail) => Decode(head) + Marker(omitted, |all|, maxBytes) + Decode(tail)
  }

  /** What is reported of a stream too long: its beginning, the marker, its end. */
  lemma TextIsExactly(maxBytes: nat, all: seq<Byte>)
    ensures |all| <= maxBytes ==> Text(maxBytes, all) == Decode(all)
    ensures |all| > maxBytes ==>
      Text(maxBytes, all) ==
        Decode(all[..maxBytes / 2]) + Marker(|all| - maxBytes, |all|, maxBytes)
        + Decode(all[|all| - (maxBytes - maxBytes / 2)..])
  {
    hide Decode, Marker;
  }

  /** The marker names the bytes omitted, those printed, and the budget, in this order. */
  lemma MarkerReads(omitted: nat, total: nat, maxBytes: nat, o: char, t: char, m: char)
    requires omitted < 10 && total < 10 && maxBytes < 10
    requires o as int == 0x30 + omitted && t as int == 0x30 + total && m as int == 0x30 + maxBytes
    ensures Marker(omitted, total, maxBytes) ==
      Ascii("\n[agent-harness truncated " + [o] + " byte" + (if omitted == 1 then "" else "s") + "; original=" + [t]
            + "; max=" + [m] + "]\n")
  {
    var a := "\n[agent-harness truncated ";
    var s := if omitted == 1 then "" else "s";
    AsciiDigit(omitted, o);
    AsciiDigit(total, t);
    AsciiDigit(maxBytes, m);
    AsciiConcat(a, [o]);
    AsciiConcat(a + [o], " byte");
    AsciiConcat(a + [o] + " byte", s);
    AsciiConcat(a + [o] + " byte" + s, "; original=");
    AsciiConcat(a + [o] + " byte" + s + "; original=", [t]);
    AsciiConcat(a + [o] + " byte" + s + "; original=" + [t], "; max=");
    AsciiConcat(a + [o] + " byte" + s + "; original=" + [t] + "; max=", [m]);
    AsciiConcat(a + [o] + " byte" + s + "; original=" + [t] + "; max=" + [m], "]\n");
  }

  lemma AsciiConcat(a: string, b: string)
    ensures Ascii(a + b) == Ascii(a) + Ascii(b)
  {
  }

  lemma AsciiDigit(n: nat, c: char)
    requires n < 10 && c as int == 0x30 + n
    ensures Digits(n) == Ascii([c])
  {
  }

  datatype StreamOutput = StreamOutput(
    bytes: nat, maxBytes: nat, matchedFailurePatterns: seq<FailurePatterns.Text>, text: seq<Scalar>, truncated: bool)

  function Output(maxBytes: nat, patterns: seq<FailurePatterns.Text>, fold: Unit -> Unit, all: seq<Byte>): StreamOutput {
    StreamOutput(|all|, maxBytes, Found(patterns, Units(Decode(all)), fold), Text(maxBytes, all), |all| > maxBytes)
  }

  lemma OutputIsExactly(maxBytes: nat, patterns: seq<FailurePatterns.Text>, fold: Unit -> Unit, all: seq<Byte>)
    ensures var output := Output(maxBytes, patterns, fold, all);
      && output.bytes == |all| && output.maxBytes == maxBytes
      && (output.truncated <==> |all| > maxBytes)
      && output.text == Text(maxBytes, all)
      && output.matchedFailurePatterns == Found(patterns, Units(Decode(all)), fold)
  {
    hide Text, Found, Units, Decode;
  }

  // ---------------------------------------------------------------------------
  // The accumulator

  class OutputAccumulator {
    const maxBytes: nat
    const headLimit: nat
    const tailLimit: nat
    const failurePatternTracker: FailurePatternTracker
    var exactChunks: seq<seq<Byte>>
    var head: seq<Byte>
    var tail: seq<Byte>
    var truncated: bool
    var totalBytes: nat
    ghost var all: seq<Byte>

    ghost predicate Valid()
      reads this, failurePatternTracker
    {
      Retains() && Tracks()
    }

    ghost predicate Retains()
      reads this
    {
      && headLimit == HeadLimit(maxBytes) && tailLimit == TailLimit(maxBytes)
      && totalBytes == |all|
      && truncated == (|all| > maxBytes)
      && (!truncated ==> Concat(exactChunks) == all)
      && (truncated ==> Captured(maxBytes, all) == Ends(head, |all| - maxBytes, tail))
    }

    ghost predicate Tracks()
      reads this, failurePatternTracker
    {
      && failurePatternTracker.Valid()
      && (!failurePatternTracker.decoderEnded ==>
            && failurePatternTracker.streamDecoder == PushAll(READY, all).decoder
            && failurePatternTracker.text == Units(PushAll(READY, all).text))
    }

    constructor (maxBytes: nat, failurePatterns: seq<FailurePatterns.Text>, fold: Unit -> Unit)
      ensures Valid() && fresh(this) && fresh(failurePatternTracker)
      ensures this.maxBytes == maxBytes && all == [] && !failurePatternTracker.decoderEnded
      ensures failurePatternTracker.failurePatterns == failurePatterns && failurePatternTracker.fold == fold
    {
      this.maxBytes := maxBytes;
      headLimit, tailLimit := maxBytes / 2, maxBytes - maxBytes / 2;
      failurePatternTracker := new FailurePatternTracker(failurePatterns, fold);
      exactChunks, head, tail, truncated, totalBytes := [], [], [], false, 0;
      all := [];
    }

    method Append(chunk: seq<Byte>)
      requires Valid() && !failurePatternTracker.decoderEnded
      modifies this, failurePatternTracker
      ensures Valid() && !failurePatternTracker.decoderEnded
      ensures all == old(all) + chunk
    {
      hide FailurePatternTracker.Valid, Retains;
      failurePatternTracker.Append(chunk);
      ghost var before := PushAll(READY, all);
      PushAllConcat(READY, all, chunk);
      UnitsConcat(before.text, PushAll(before.decoder, chunk).text);
      Retain(chunk);
    }

    method Retain(chunk: seq<Byte>)
      requires Retains()
      modifies this
      ensures Retains()
      ensures all == old(all) + chunk
    {
      all := all + chunk;
      var nextTotalBytes := totalBytes + |chunk|;
      if !truncated && nextTotalBytes <= maxBytes {
        ConcatSnoc(exactChunks, chunk);
        exactChunks := exactChunks + [chunk];
        totalBytes := nextTotalBytes;
        return;
      }
      if !truncated {
        var combined := Concat(exactChunks) + chunk;
        head := Upto(combined, headLimit);
        tail := combined[Max(0, |combined| - tailLimit)..];
        exactChunks := [];
        truncated := true;
        totalBytes := nextTotalBytes;
        return;
      }
      tail := (tail + chunk)[Max(0, |tail| + |chunk| - tailLimit)..];
      totalBytes := nextTotalBytes;
    }

    method Finish() returns (output: StreamOutput)
      requires Valid() && !failurePatternTracker.decoderEnded
      modifies failurePatternTracker
      ensures Valid()
      ensures output == Output(maxBytes, failurePatternTracker.failurePatterns, failurePatternTracker.fold, all)
    {
      hide FailurePatternTracker.Valid, Marker, PushAll, Units, Found;
      ghost var whole := PushAll(READY, all);
      UnitsConcat(whole.text, Flush(whole.decoder));
      var matches := failurePatternTracker.GetMatches();
      if !truncated {
        return StreamOutput(totalBytes, maxBytes, matches, Decode(Concat(exactChunks)), false);
      }
      var omittedBytes := Max(0, totalBytes - |head| - |tail|);
      output := StreamOutput(totalBytes, maxBytes, matches,
        Decode(head) + Marker(omittedBytes, totalBytes, maxBytes) + Decode(tail), true);
    }
  }

  function Max(a: int, b: int): int { if a > b then a else b }

  /** The first `limit` bytes, or all there are. */
  function Upto(bytes: seq<Byte>, limit: nat): seq<Byte> { if |bytes| < limit then bytes else bytes[..limit] }

  /** A finished stream's report depends on what came, not on how it was cut into chunks. */
  method Capturing(maxBytes: nat, patterns: seq<FailurePatterns.Text>, fold: Unit -> Unit, chunks: seq<seq<Byte>>)
    returns (output: StreamOutput)
    ensures output == Output(maxBytes, patterns, fold, Concat(chunks))
  {
    hide FailurePatternTracker.Valid, OutputAccumulator.Valid, Output;
    var accumulator := new OutputAccumulator(maxBytes, patterns, fold);
    assert chunks[..0] == [];
    for i := 0 to |chunks|
      invariant fresh(accumulator) && fresh(accumulator.failurePatternTracker)
      invariant accumulator.Valid() && !accumulator.failurePatternTracker.decoderEnded
      invariant accumulator.all == Concat(chunks[..i])
    {
      accumulator.Append(chunks[i]);
      assert chunks[..i + 1] == chunks[..i] + [chunks[i]];
      ConcatSnoc(chunks[..i], chunks[i]);
    }
    assert chunks[..|chunks|] == chunks;
    output := accumulator.Finish();
  }
}
