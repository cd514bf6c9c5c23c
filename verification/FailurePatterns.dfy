/** Watching a command's output for failure patterns while it streams by. The patterns here are
    literal texts, compared without regard to case through an arbitrary folding of code units. */
module FailurePatterns {
  import opened Utf8

  type Unit = u: int | 0 <= u < 0x1_0000

  type Text = seq<Unit>

  // ---------------------------------------------------------------------------
  // What is being watched: the decoded output, in the code units patterns are matched on

  function UnitsOf(c: Scalar): Text {
    if c < 0x1_0000 then var u: Unit := c; [u]
    else [0xD800 + (c - 0x1_0000) / 1024, 0xDC00 + (c - 0x1_0000) % 1024]
  }

  function Units(text: seq<Scalar>): Text {
    if text == [] then [] else UnitsOf(text[0]) + Units(text[1..])
  }

  lemma {:induction false} UnitsConcat(a: seq<Scalar>, b: seq<Scalar>)
    ensures Units(a + b) == Units(a) + Units(b)
    decreases |a|
  {
    if a == [] {
      assert a + b == b;
    } else {
      assert (a + b)[1..] == a[1..] + b;
      UnitsConcat(a[1..], b);
    }
  }

  predicate OccursAt(pattern: Text, text: Text, at: int, fold: Unit -> Unit) {
    && 0 <= at <= |text| - |pattern|
    && forall k | 0 <= k < |pattern| :: fold(pattern[k]) == fold(text[at + k])
  }

  /** What a case-insensitive literal search finds. */
  predicate Occurs(pattern: Text, text: Text, fold: Unit -> Unit) {
    exists at | 0 <= at <= |text| - |pattern| :: OccursAt(pattern, text, at, fold)
  }

  /** That is: some stretch of the text reads like the pattern once both are folded. */
  lemma OccursIsExactly(pattern: Text, text: Text, fold: Unit -> Unit)
    ensures Occurs(pattern, text, fold) <==>
      exists before: Text, found: Text, after: Text ::
        text == before + found + after && Folded(found, fold) == Folded(pattern, fold)
  {
    if Occurs(pattern, text, fold) {
      var at :| 0 <= at <= |text| - |pattern| && OccursAt(pattern, text, at, fold);
      var before, found, after := text[..at], text[at..at + |pattern|], text[at + |pattern|..];
      assert text == before + found + after;
      assert Folded(found, fold) == Folded(pattern, fold);
    }
    if before: Text, found: Text, after: Text :|
        text == before + found + after && Folded(found, fold) == Folded(pattern, fold) {
      assert |found| == |pattern|;
      assert OccursAt(pattern, text, |before|, fold) by {
        forall k | 0 <= k < |pattern| ensures fold(pattern[k]) == fold(text[|before| + k]) {
          assert text[|before| + k] == found[k] && Folded(found, fold)[k] == Folded(pattern, fold)[k];
        }
      }
    }
  }

  function Folded(text: Text, fold: Unit -> Unit): Text {
    seq(|text|, i requires 0 <= i < |text| => fold(text[i]))
  }

  /** Characters beyond the sixteen-bit range become a high and a low surrogate. */
  lemma UnitsReadBack(c: Scalar)
    ensures c < 0x1_0000 ==> UnitsOf(c) == [c]
    ensures c >= 0x1_0000 ==>
      && |UnitsOf(c)| == 2 && 0xD800 <= UnitsOf(c)[0] <= 0xDBFF && 0xDC00 <= UnitsOf(c)[1] <= 0xDFFF
      && (var high: int, low: int := UnitsOf(c)[0], UnitsOf(c)[1];
          c == 0x1_0000 + (high - 0xD800) * 0x400 + (low - 0xDC00))
  {
  }

  function Last(text: Text, limit: nat): (kept: Text)
    ensures |kept| <= limit && |kept| <= |text|
  {
    if |text| <= limit then text else text[|text| - limit..]
  }

  /** Looking only at the end of what was seen and at what is new misses nothing. */
  lemma OccursAcrossTheSeam(pattern: Text, text: Text, more: Text, limit: nat, fold: Unit -> Unit)
    requires |pattern| <= limit
    ensures Occurs(pattern, text + more, fold) <==>
              Occurs(pattern, text, fold) || Occurs(pattern, Last(text, limit) + more, fold)
  {
    var skipped, window := text[..|text| - |Last(text, limit)|], Last(text, limit) + more;
    assert text + more == skipped + window + [] && text + more == [] + text + more;
    if Occurs(pattern, text + more, fold) {
      OccursOnOneSide(pattern, text, more, limit, fold);
    }
    hide Occurs;
    if Occurs(pattern, text, fold) {
      OccursInside(pattern, [], text, more, fold);
    }
    if Occurs(pattern, window, fold) {
      OccursInside(pattern, skipped, window, [], fold);
    }
  }

  /** What occurs in a part occurs in the whole. */
  lemma OccursInside(pattern: Text, before: Text, part: Text, after: Text, fold: Unit -> Unit)
    requires Occurs(pattern, part, fold)
    ensures Occurs(pattern, before + part + after, fold)
  {
    var at :| 0 <= at <= |part| - |pattern| && OccursAt(pattern, part, at, fold);
    OccursAtShifted(pattern, before, part, after, at, fold);
  }

  lemma OccursAtShifted(pattern: Text, before: Text, part: Text, after: Text, at: int, fold: Unit -> Unit)
    requires OccursAt(pattern, part, at, fold)
    ensures OccursAt(pattern, before + part + after, |before| + at, fold)
  {
    forall k | 0 <= k < |pattern| ensures fold(pattern[k]) == fold((before + part + after)[|before| + at + k]) {
      assert (before + part + after)[|before| + at + k] == part[at + k];
    }
  }

  lemma OccursOnOneSide(pattern: Text, text: Text, more: Text, limit: nat, fold: Unit -> Unit)
    requires |pattern| <= limit && Occurs(pattern, text + more, fold)
    ensures Occurs(pattern, text, fold) || Occurs(pattern, Last(text, limit) + more, fold)
  {
    var at :| 0 <= at <= |text + more| - |pattern| && OccursAt(pattern, text + more, at, fold);
    var window := Last(text, limit) + more;
    var skipped := |text| - |Last(text, limit)|;
    if at + |pattern| <= |text| {
      assert OccursAt(pattern, text, at, fold) by {
        forall k | 0 <= k < |pattern| ensures fold(pattern[k]) == fold(text[at + k]) {
          assert (text + more)[at + k] == text[at + k];
        }
      }
    } else {
      assert OccursAt(pattern, window, at - skipped, fold) by {
        forall k | 0 <= k < |pattern| ensures fold(pattern[k]) == fold(window[at - skipped + k]) {
          assert (text + more)[at + k] == window[at - skipped + k];
        }
      }
    }
  }

  /** Nor is more of the text needed than is kept. */
  lemma LastOfLast(text: Text, more: Text, limit: nat)
    ensures Last(Last(text, limit) + more, limit) == Last(text + more, limit)
  {
  }

  /** The patterns that occur, in the order given and as often as given. */
  function Found(patterns: seq<Text>, text: Text, fold: Unit -> Unit): (found: seq<Text>)
    ensures forall p :: p in found <==> p in patterns && Occurs(p, text, fold)
  {
    if patterns == [] then []
    else (if Occurs(patterns[0], text, fold) then [patterns[0]] else []) + Found(patterns[1..], text, fold)
  }

  /** Order and repetition are those of the patterns given. */
  lemma {:induction false} FoundKeepsOrder(patterns: seq<Text>, more: seq<Text>, text: Text, fold: Unit -> Unit)
    ensures Found(patterns + more, text, fold) == Found(patterns, text, fold) + Found(more, text, fold)
    ensures forall p: Text :: Found([p], text, fold) == if Occurs(p, text, fold) then [p] else []
    decreases |patterns|
  {
    forall p: Text ensures Found([p], text, fold) == if Occurs(p, text, fold) then [p] else [] {
      assert [p][1..] == [];
    }
    if patterns == [] {
      assert patterns + more == more;
    } else {
      assert (patterns + more)[1..] == patterns[1..] + more;
      FoundKeepsOrder(patterns[1..], more, text, fold);
    }
  }

  function Listed(patterns: seq<Text>, chosen: set<Text>): seq<Text> {
    if patterns == [] then []
    else (if patterns[0] in chosen then [patterns[0]] else []) + Listed(patterns[1..], chosen)
  }

  lemma {:induction false} ListedIsFound(patterns: seq<Text>, chosen: set<Text>, text: Text, fold: Unit -> Unit)
    requires forall p <- patterns :: p in chosen <==> Occurs(p, text, fold)
    ensures Listed(patterns, chosen) == Found(patterns, text, fold)
    decreases |patterns|
  {
    if patterns != [] {
      assert patterns[0] in patterns;
      ListedIsFound(patterns[1..], chosen, text, fold);
    }
  }

  /** As many matches as patterns means that every pattern has matched, repeated ones or not. */
  lemma {:induction false} AllMatched(patterns: seq<Text>, matched: set<Text>)
    requires forall p <- matched :: p in patterns
    requires |matched| >= |patterns|
    ensures forall p <- patterns :: p in matched
    decreases |patterns|
  {
    if patterns != [] {
      var rest := matched - {patterns[0]};
      forall p <- rest ensures p in patterns[1..] {
        assert p in patterns && p != patterns[0];
      }
      AllMatched(patterns[1..], rest);
      if patterns[0] !in matched {
        assert matched == rest;
        AtMostAsMany(patterns[1..], matched);
        assert false;
      }
      forall p <- patterns ensures p in matched {
        assert p == patterns[0] || p in patterns[1..];
      }
    }
  }

  lemma {:induction false} AtMostAsMany(patterns: seq<Text>, matched: set<Text>)
    requires forall p <- matched :: p in patterns
    ensures |matched| <= |patterns|
    decreases |patterns|
  {
    if patterns == [] {
      assert matched == {};
    } else {
      AtMostAsMany(patterns[1..], matched - {patterns[0]});
    }
  }

  // ---------------------------------------------------------------------------
  // The tracker

  class FailurePatternTracker {
    const failurePatterns: seq<Text>
    const fold: Unit -> Unit
    const carryoverLimit: nat
    var carryover: Text
    var decoderEnded: bool
    var matchedPatterns: set<Text>
    var streamDecoder: Decoder
    ghost var text: Text     // everything decoded so far
    ghost var searched: bool

    ghost predicate Valid()
      reads this
    {
      && (forall p <- failurePatterns :: |p| <= carryoverLimit)
      && (forall p <- matchedPatterns :: p in failurePatterns)
      && (forall p <- failurePatterns | searched || p != [] :: p in matchedPatterns <==> Occurs(p, text, fold))
      && (decoderEnded ==> searched)
      && (|matchedPatterns| < |failurePatterns| ==> carryover == Last(text, carryoverLimit))
    }

    constructor (failurePatterns: seq<Text>, fold: Unit -> Unit)
      ensures Valid() && fresh(this)
      ensures this.failurePatterns == failurePatterns && this.fold == fold
      ensures text == [] && !decoderEnded && streamDecoder == READY
    {
      var longest := 0;
      for i := 0 to |failurePatterns|
        invariant forall p <- failurePatterns[..i] :: |p| <= longest
      {
        assert failurePatterns[..i + 1] == failurePatterns[..i] + [failurePatterns[i]];
        longest := if |failurePatterns[i]| > longest then |failurePatterns[i]| else longest;
      }
      assert failurePatterns[..|failurePatterns|] == failurePatterns;
      this.failurePatterns, this.fold := failurePatterns, fold;
      carryoverLimit := if longest * 4 > 4096 then longest * 4 else 4096;
      carryover, decoderEnded, matchedPatterns, streamDecoder := [], false, {}, READY;
      text, searched := [], false;
    }

    method AppendDecodedText(more: Text)
      requires Valid()
      modifies this`carryover, this`matchedPatterns, this`text, this`searched
      ensures Valid() && searched
      ensures text == old(text) + more
    {
      ghost var before := text;
      text, searched := text + more, true;
      forall p <- failurePatterns
        ensures Occurs(p, text, fold) <==>
                  Occurs(p, before, fold) || Occurs(p, Last(before, carryoverLimit) + more, fold)
      {
        OccursAcrossTheSeam(p, before, more, carryoverLimit, fold);
      }
      if |failurePatterns| == 0 || |matchedPatterns| == |failurePatterns| {
        AllMatched(failurePatterns, matchedPatterns);
        forall p <- failurePatterns ensures Occurs(p, text, fold) {
          assert p != [] || OccursAt(p, text, 0, fold);
        }
        return;
      }
      AtMostAsMany(failurePatterns, matchedPatterns);
      var searchWindow := carryover + more;
      for i := 0 to |failurePatterns|
        invariant text == before + more && searched && carryover == old(carryover)
        invariant forall p <- matchedPatterns :: p in failurePatterns
        invariant forall p :: p in matchedPatterns <==>
                    p in old(matchedPatterns) || (p in failurePatterns[..i] && Occurs(p, searchWindow, fold))
      {
        assert failurePatterns[..i + 1] == failurePatterns[..i] + [failurePatterns[i]];
        if failurePatterns[i] !in matchedPatterns && Search(failurePatterns[i], searchWindow) {
          matchedPatterns := matchedPatterns + {failurePatterns[i]};
        }
      }
      assert failurePatterns[..|failurePatterns|] == failurePatterns;
      LastOfLast(before, more, carryoverLimit);
      carryover := Last(searchWindow, carryoverLimit);
      forall p <- failurePatterns ensures p in matchedPatterns <==> Occurs(p, text, fold) {
        if p == [] {
          assert OccursAt(p, text, 0, fold) && OccursAt(p, searchWindow, 0, fold);
        }
      }
    }

    /** The regular-expression engine's answer for a literal pattern. */
    function Search(pattern: Text, window: Text): (found: bool)
      ensures found == Occurs(pattern, window, fold)
    {
      exists at | 0 <= at <= |window| - |pattern| :: OccursAt(pattern, window, at, fold)
    }

    method Append(chunk: seq<Byte>)
      requires Valid()
      modifies this
      ensures Valid() && decoderEnded == old(decoderEnded)
      ensures text == old(text) + Units(PushAll(old(streamDecoder), chunk).text)
      ensures streamDecoder == PushAll(old(streamDecoder), chunk).decoder
    {
      var pushed := PushAll(streamDecoder, chunk);
      streamDecoder := pushed.decoder;
      AppendDecodedText(Units(pushed.text));
    }

    method GetMatches() returns (matches: seq<Text>)
      requires Valid()
      modifies this
      ensures Valid() && decoderEnded && searched
      ensures text == if old(decoderEnded) then old(text) else old(text) + Units(Flush(old(streamDecoder)))
      ensures matches == Found(failurePatterns, text, fold)
    {
      if !decoderEnded {
        var rest := Flush(streamDecoder);
        streamDecoder := READY;
        AppendDecodedText(Units(rest));
        decoderEnded := true;
      }
      matches := Listed(failurePatterns, matchedPatterns);
      ListedIsFound(failurePatterns, matchedPatterns, text, fold);
    }
  }

  function Concat(chunks: seq<seq<Byte>>): seq<Byte> {
    if chunks == [] then [] else chunks[0] + Concat(chunks[1..])
  }

  lemma {:induction false} ConcatSnoc(chunks: seq<seq<Byte>>, chunk: seq<Byte>)
    ensures Concat(chunks + [chunk]) == Concat(chunks) + chunk
    decreases |chunks|
  {
    if chunks == [] {
      assert chunks + [chunk] == [chunk];
    } else {
      assert (chunks + [chunk])[1..] == chunks[1..] + [chunk];
      ConcatSnoc(chunks[1..], chunk);
    }
  }

  lemma EmptyInput()
    ensures PushAll(READY, Concat([])) == Pushed(READY, []) && Units([]) == []
  {
  }

  /** However the output is cut into chunks, even inside a character, the patterns reported are
      those that occur in the whole decoded output. */
  method TrackFailures(failurePatterns: seq<Text>, fold: Unit -> Unit, chunks: seq<seq<Byte>>)
    returns (matches: seq<Text>)
    ensures matches == Found(failurePatterns, Units(Decode(Concat(chunks))), fold)
  {
    hide FailurePatternTracker.Valid, PushAll, Units, Found;
    var tracker := new FailurePatternTracker(failurePatterns, fold);
    EmptyInput();
    assert chunks[..0] == [];
    for i := 0 to |chunks|
      invariant tracker.Valid() && !tracker.decoderEnded && fresh(tracker)
      invariant tracker.streamDecoder == PushAll(READY, Concat(chunks[..i])).decoder
      invariant tracker.text == Units(PushAll(READY, Concat(chunks[..i])).text)
    {
      ghost var before := PushAll(READY, Concat(chunks[..i]));
      tracker.Append(chunks[i]);
      assert chunks[..i + 1] == chunks[..i] + [chunks[i]];
      ConcatSnoc(chunks[..i], chunks[i]);
      PushAllConcat(READY, Concat(chunks[..i]), chunks[i]);
      UnitsConcat(before.text, PushAll(before.decoder, chunks[i]).text);
    }
    assert chunks[..|chunks|] == chunks;
    ghost var all := PushAll(READY, Concat(chunks));
    UnitsConcat(all.text, Flush(all.decoder));
    matches := tracker.GetMatches();
  }
}
