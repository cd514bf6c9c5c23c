/** Forwarding a detached command's output to its log, up to a number of bytes, never cutting a
    character, and saying once where it stopped. */
module OutputRelay {
  import opened Utf8
  import A = OutputAccumulator

  function Size(text: seq<Scalar>): nat { |Encode(text)| }

  lemma SizeConcat(a: seq<Scalar>, b: seq<Scalar>)
    ensures Size(a + b) == Size(a) + Size(b)
  {
    EncodeConcat(a, b);
  }

  lemma SizeOfOne(c: Scalar)
    ensures Size([c]) == EncodedLength(c)
  {
    assert Encode([c]) == EncodeScalar(c) + Encode([]);
  }

  lemma LongerIsLarger(text: seq<Scalar>, i: nat, j: nat)
    requires i <= j <= |text|
    ensures Size(text[..i]) <= Size(text[..j])
    ensures i < j ==> Size(text[..i]) + EncodedLength(text[i]) <= Size(text[..j])
  {
    assert text[..j] == text[..i] + text[i..j];
    SizeConcat(text[..i], text[i..j]);
    if i < j {
      assert text[i..j] == [text[i]] + text[i + 1..j];
      SizeConcat([text[i]], text[i + 1..j]);
      SizeOfOne(text[i]);
    }
  }

  // ---------------------------------------------------------------------------
  // What is forwarded

  /** As many characters as fit, taken one after the other. */
  function Fitting(text: seq<Scalar>, maxBytes: nat): seq<Scalar> {
    if text == [] || EncodedLength(text[0]) > maxBytes then []
    else [text[0]] + Fitting(text[1..], maxBytes - EncodedLength(text[0]))
  }

  lemma {:induction false} FittingShape(text: seq<Scalar>, maxBytes: nat)
    ensures var k := |Fitting(text, maxBytes)|;
            && k <= |text| && Fitting(text, maxBytes) == text[..k]
            && Size(text[..k]) <= maxBytes
            && (k < |text| ==> Size(text[..k]) + EncodedLength(text[k]) > maxBytes)
    decreases |text|
  {
    if text != [] && EncodedLength(text[0]) <= maxBytes {
      hide Encode;
      var rest := Fitting(text[1..], maxBytes - EncodedLength(text[0]));
      FittingShape(text[1..], maxBytes - EncodedLength(text[0]));
      assert text[..|rest| + 1] == [text[0]] + text[1..][..|rest|];
      SizeConcat([text[0]], text[1..][..|rest|]);
      SizeOfOne(text[0]);
    }
  }

  /** No longer beginning of the text fits. */
  lemma FittingIsLongest(text: seq<Scalar>, other: seq<Scalar>, maxBytes: nat)
    requires other <= text && Size(other) <= maxBytes
    ensures other <= Fitting(text, maxBytes) <= text && Size(Fitting(text, maxBytes)) <= maxBytes
  {
    hide Encode, Size;
    FittingShape(text, maxBytes);
    var k := |Fitting(text, maxBytes)|;
    assert other == text[..|other|];
    if k < |other| {
      LongerIsLarger(text, k, |other|);
    }
  }

  /** A fitting beginning followed by a character that no longer fits is the longest one. */
  lemma FittingStops(text: seq<Scalar>, k: nat, maxBytes: nat)
    requires k <= |text| && Size(text[..k]) <= maxBytes
    requires k < |text| ==> Size(text[..k]) + EncodedLength(text[k]) > maxBytes
    ensures Fitting(text, maxBytes) == text[..k]
  {
    hide Encode, Size;
    FittingShape(text, maxBytes);
    var n := |Fitting(text, maxBytes)|;
    if k < n {
      LongerIsLarger(text, k, n);
    } else if n < k {
      LongerIsLarger(text, n, k);
    }
  }

  /** Less than one character's worth of the budget is wasted. */
  lemma FittingFillsTheBudget(text: seq<Scalar>, maxBytes: nat)
    requires Size(text) > maxBytes
    ensures maxBytes - 3 <= Size(Fitting(text, maxBytes)) <= maxBytes
    ensures |Fitting(text, maxBytes)| < |text|
  {
    hide Encode, Size;
    FittingShape(text, maxBytes);
    assert text[..|text|] == text;
  }

  function Notice(stream: string, commandId: string, forwarded: nat): seq<Scalar> {
    A.Ascii("\n[agent-harness detached ") + A.Ascii(stream) + A.Ascii(" log truncated for command ")
    + A.Ascii(commandId) + A.Ascii(" after ") + A.Digits(forwarded)
    + A.Ascii(" byte") + A.Ascii(if forwarded == 1 then "" else "s")
    + A.Ascii("; see verify-result.json for retained output]\n")
  }

  /** The log of a whole stream. */
  function Log(text: seq<Scalar>, maxBytes: nat, stream: string, commandId: string): seq<Scalar> {
    if Size(text) <= maxBytes then text
    else Fitting(text, maxBytes) + Notice(stream, commandId, Size(Fitting(text, maxBytes)))
  }

  /** The log is the text while it fits, and otherwise its longest fitting beginning and one notice of
      how many bytes were forwarded. */
  lemma LogIsExactly(text: seq<Scalar>, maxBytes: nat, stream: string, commandId: string, k: nat)
    requires k <= |text| && Size(text[..k]) <= maxBytes
    requires k < |text| ==> Size(text[..k]) + EncodedLength(text[k]) > maxBytes
    ensures Size(text) <= maxBytes ==> Log(text, maxBytes, stream, commandId) == text
    ensures Size(text) > maxBytes ==>
      Log(text, maxBytes, stream, commandId) == text[..k] + Notice(stream, commandId, Size(text[..k]))
  {
    hide Size, Notice, Fitting;
    FittingStops(text, k, maxBytes);
  }

  /** The notice names the stream, the command and the bytes, in this order. */
  lemma NoticeReads(stream: string, commandId: string, forwarded: nat, digit: char)
    requires forwarded < 10 && digit as int == 0x30 + forwarded
    ensures Notice(stream, commandId, forwarded) ==
      A.Ascii("\n[agent-harness detached " + stream + " log truncated for command " + commandId + " after " + [digit]
              + " byte" + (if forwarded == 1 then "" else "s") + "; see verify-result.json for retained output]\n")
  {
    var a, b, c := "\n[agent-harness detached ", " log truncated for command ", " after ";
    var s := if forwarded == 1 then "" else "s";
    A.AsciiDigit(forwarded, digit);
    A.AsciiConcat(a, stream);
    A.AsciiConcat(a + stream, b);
    A.AsciiConcat(a + stream + b, commandId);
    A.AsciiConcat(a + stream + b + commandId, c);
    A.AsciiConcat(a + stream + b + commandId + c, [digit]);
    A.AsciiConcat(a + stream + b + commandId + c + [digit], " byte");
    A.AsciiConcat(a + stream + b + commandId + c + [digit] + " byte", s);
    A.AsciiConcat(a + stream + b + commandId + c + [digit] + " byte" + s,
                  "; see verify-result.json for retained output]\n");
  }

  /** Nothing that comes after the limit is passed changes the log. */
  lemma LogIsFinal(text: seq<Scalar>, more: seq<Scalar>, maxBytes: nat, stream: string, commandId: string)
    requires Size(text) > maxBytes
    ensures Log(text + more, maxBytes, stream, commandId) == Log(text, maxBytes, stream, commandId)
  {
    hide Encode, Size, Notice;
    SizeConcat(text, more);
    FittingFillsTheBudget(text, maxBytes);
    FittingShape(text, maxBytes);
    var k := |Fitting(text, maxBytes)|;
    assert (text + more)[..k] == text[..k];
    FittingStops(text + more, k, maxBytes);
  }

  // ---------------------------------------------------------------------------
  // The loop and the relay

  method TakeUtf8Prefix(text: seq<Scalar>, maxBytes: nat) returns (output: seq<Scalar>)
    ensures output == Fitting(text, maxBytes)
  {
    var bytes := 0;
    output := [];
    var i := 0;
    while i < |text|
      invariant i <= |text| && output == text[..i] && bytes == Size(output) <= maxBytes
    {
      var characterBytes := EncodedLength(text[i]);
      if bytes + characterBytes > maxBytes {
        break;
      }
      SizeConcat(output, [text[i]]);
      SizeOfOne(text[i]);
      output := output + [text[i]];
      bytes := bytes + characterBytes;
      i := i + 1;
    }
    FittingStops(text, i, maxBytes);
  }

  class BoundedDetachedOutputRelay {
    const commandId: string
    const streamName: string
    const maxBytes: nat
    var forwardedBytes: nat
    var truncated: bool
    var written: seq<Scalar>       // everything handed to the log so far
    ghost var text: seq<Scalar>    // everything handed to the relay

    ghost predicate Valid()
      reads this
    {
      && truncated == (Size(text) > maxBytes)
      && (!truncated ==> forwardedBytes == Size(text))
      && written == Log(text, maxBytes, streamName, commandId)
    }

    constructor (commandId: string, streamName: string, maxBytes: nat)
      ensures Valid() && text == []
      ensures this.commandId == commandId && this.streamName == streamName && this.maxBytes == maxBytes
    {
      this.commandId, this.streamName, this.maxBytes := commandId, streamName, maxBytes;
      forwardedBytes, truncated, written, text := 0, false, [], [];
    }

    method Relay(chunk: seq<Scalar>)
      requires Valid()
      modifies this
      ensures Valid() && text == old(text) + chunk
    {
      hide Encode, Notice, Fitting;
      ghost var before := text;
      text := text + chunk;
      SizeConcat(before, chunk);
      if truncated {
        LogIsFinal(before, chunk, maxBytes, streamName, commandId);
        return;
      }
      var chunkBytes := |Encode(chunk)|;
      var remainingBytes := if maxBytes > forwardedBytes then maxBytes - forwardedBytes else 0;
      if chunkBytes <= remainingBytes {
        written := written + chunk;
        forwardedBytes := forwardedBytes + chunkBytes;
        return;
      }
      var prefix := TakeUtf8Prefix(chunk, remainingBytes);
      FittingAfter(before, chunk, maxBytes);
      SizeConcat(before, prefix);
      assert Fitting(text, maxBytes) == before + prefix;
      assert prefix == [] ==> before + prefix == before;
      if |prefix| > 0 {
        written := written + prefix;
        forwardedBytes := forwardedBytes + |Encode(prefix)|;
      }
      written := written + Notice(streamName, commandId, forwardedBytes);
      truncated := true;
    }
  }

  lemma {:induction false} FittingAfter(before: seq<Scalar>, chunk: seq<Scalar>, maxBytes: nat)
    requires Size(before) <= maxBytes
    ensures Fitting(before + chunk, maxBytes) == before + Fitting(chunk, maxBytes - Size(before))
    decreases |before|
  {
    hide Encode, Fitting;
    if before == [] {
      assert before + chunk == chunk;
      EmptySize();
    } else {
      var first, rest := before[0], before[1..];
      assert before == [first] + rest;
      SizeConcat([first], rest);
      SizeOfOne(first);
      hide Size;
      assert before + chunk == [first] + (rest + chunk);
      FittingStep(first, rest + chunk, maxBytes);
      FittingAfter(rest, chunk, maxBytes - EncodedLength(first));
      var fitting := Fitting(chunk, maxBytes - Size(before));
      assert [first] + (rest + fitting) == before + fitting;
    }
  }

  lemma EmptySize()
    ensures Size([]) == 0
  {
  }

  lemma FittingStep(c: Scalar, rest: seq<Scalar>, maxBytes: nat)
    requires EncodedLength(c) <= maxBytes
    ensures Fitting([c] + rest, maxBytes) == [c] + Fitting(rest, maxBytes - EncodedLength(c))
  {
    assert ([c] + rest)[1..] == rest;
  }

  function Joined(chunks: seq<seq<Scalar>>): seq<Scalar> {
    if chunks == [] then [] else chunks[0] + Joined(chunks[1..])
  }

  lemma {:induction false} JoinedSnoc(chunks: seq<seq<Scalar>>, chunk: seq<Scalar>)
    ensures Joined(chunks + [chunk]) == Joined(chunks) + chunk
    decreases |chunks|
  {
    if chunks == [] {
      assert chunks + [chunk] == [chunk];
    } else {
      assert (chunks + [chunk])[1..] == chunks[1..] + [chunk];
      JoinedSnoc(chunks[1..], chunk);
    }
  }

  /** The log of a stream does not depend on how the stream was cut into chunks. */
  method RelayAll(commandId: string, streamName: string, maxBytes: nat, chunks: seq<seq<Scalar>>)
    returns (log: seq<Scalar>)
    ensures log == Log(Joined(chunks), maxBytes, streamName, commandId)
  {
    hide Log, Size, Encode;
    var relay := new BoundedDetachedOutputRelay(commandId, streamName, maxBytes);
    assert chunks[..0] == [];
    for i := 0 to |chunks|
      invariant relay.Valid() && relay.text == Joined(chunks[..i])
    {
      relay.Relay(chunks[i]);
      assert chunks[..i + 1] == chunks[..i] + [chunks[i]];
      JoinedSnoc(chunks[..i], chunks[i]);
    }
    assert chunks[..|chunks|] == chunks;
    log := relay.written;
  }
}
