/** UTF-8 as the harness reads and writes it: encoding by section 3 of RFC 3629, and decoding with
    one replacement character for each maximal ill-formed piece, one byte at a time. */
module Utf8 {

  type Byte = b: int | 0 <= b < 256

  type Scalar = c: int | 0 <= c < 0xD800 || 0xE000 <= c <= 0x10FFFF

  const REPLACEMENT: Scalar := 0xFFFD

  // ---------------------------------------------------------------------------
  // Encoding

  function EncodedLength(c: Scalar): (n: nat)
    ensures 1 <= n <= 4
  {
    if c < 0x80 then 1 else if c < 0x800 then 2 else if c < 0x1_0000 then 3 else 4
  }

  /** The byte that carries the lowest six bits of `n` inside a character. */
  function Continuation(n: nat): Byte { 0x80 + n % 64 }

  function EncodeScalar(c: Scalar): (s: seq<Byte>)
    ensures |s| == EncodedLength(c)
  {
    var point: int := c;
    if c < 0x80 then var b: Byte := c; [b]
    else if c < 0x800 then var b: Byte := 0xC0 + point / 64; [b, Continuation(point)]
    else if c < 0x1_0000 then
      var b: Byte := 0xE0 + point / 4096; [b, Continuation(point / 64), Continuation(point)]
    else
      var b: Byte := 0xF0 + point / 262144;
      [b, Continuation(point / 4096), Continuation(point / 64), Continuation(point)]
  }

  function Encode(text: seq<Scalar>): seq<Byte> {
    if text == [] then [] else EncodeScalar(text[0]) + Encode(text[1..])
  }

  // ---------------------------------------------------------------------------
  // Decoding

  /** How far into a character the decoder is: `needed` more bytes, the next between `lower` and
      `upper`, on top of the value `point` read so far. */
  datatype Partial = Partial(needed: nat, lower: int, upper: int, point: int)

  function Weight(n: nat): (w: nat)
    ensures w >= 1
  {
    if n <= 1 then 1 else 64 * Weight(n - 1)
  }

  /** The characters still possible are all scalar values. */
  predicate IsSound(p: Partial) {
    && p.needed <= 3
    && (p.needed == 0 ==> p == Partial(0, 0, 0, 0))
    && (p.needed > 0 ==>
        var low := (p.point * 64 + p.lower - 0x80) * Weight(p.needed);
        var high := (p.point * 64 + p.upper - 0x80 + 1) * Weight(p.needed) - 1;
        && 0x80 <= p.lower <= p.upper <= 0xBF && 0 <= p.point
        && 0 <= low && high <= 0x10FFFF && (high < 0xD800 || 0xE000 <= low))
  }

  type Decoder = p: Partial | IsSound(p) witness Partial(0, 0, 0, 0)

  const READY: Decoder := Partial(0, 0, 0, 0)

  datatype Pushed = Pushed(decoder: Decoder, text: seq<Scalar>)

  /** A byte that begins a character, or stands alone, or belongs nowhere. */
  function Lead(b: Byte): Pushed {
    if b < 0x80 then Pushed(READY, [b])
    else if 0xC2 <= b <= 0xDF then Pushed(Partial(1, 0x80, 0xBF, b - 0xC0), [])
    else if 0xE0 <= b <= 0xEF then
      Pushed(Partial(2, if b == 0xE0 then 0xA0 else 0x80, if b == 0xED then 0x9F else 0xBF, b - 0xE0), [])
    else if 0xF0 <= b <= 0xF4 then
      Pushed(Partial(3, if b == 0xF0 then 0x90 else 0x80, if b == 0xF4 then 0x8F else 0xBF, b - 0xF0), [])
    else Pushed(READY, [REPLACEMENT])
  }

  function Push(d: Decoder, b: Byte): Pushed {
    if d.needed == 0 then Lead(b)
    else if b < d.lower || d.upper < b then
      var again := Lead(b);
      Pushed(again.decoder, [REPLACEMENT] + again.text)
    else
      var point := d.point * 64 + b - 0x80;
      if d.needed == 1 then Pushed(READY, [point])
      else Pushed(Partial(d.needed - 1, 0x80, 0xBF, point), [])
  }

  function PushAll(d: Decoder, bytes: seq<Byte>): Pushed
    decreases |bytes|
  {
    if bytes == [] then Pushed(d, [])
    else
      var first := Push(d, bytes[0]);
      var rest := PushAll(first.decoder, bytes[1..]);
      Pushed(rest.decoder, first.text + rest.text)
  }

  /** What is left to say when the input ends. */
  function Flush(d: Decoder): seq<Scalar> { if d.needed == 0 then [] else [REPLACEMENT] }

  function Decode(bytes: seq<Byte>): seq<Scalar> {
    var all := PushAll(READY, bytes);
    all.text + Flush(all.decoder)
  }

  // ---------------------------------------------------------------------------
  // Properties

  /** Decoding goes on where it stopped: it does not matter how the input is cut into pieces. */
  lemma {:induction false} PushAllConcat(d: Decoder, a: seq<Byte>, b: seq<Byte>)
    ensures var first := PushAll(d, a);
            var second := PushAll(first.decoder, b);
            PushAll(d, a + b) == Pushed(second.decoder, first.text + second.text)
    decreases |a|
  {
    hide Push;
    if a == [] {
      assert a + b == b;
    } else {
      var first := Push(d, a[0]);
      PushAllConcat(first.decoder, a[1..], b);
      assert (a + b)[1..] == a[1..] + b;
      var tail := PushAll(first.decoder, a[1..]);
      var end := PushAll(tail.decoder, b);
      assert first.text + (tail.text + end.text) == (first.text + tail.text) + end.text;
    }
  }

  /** Every character, even a replacement, accounts for at least one byte of the input. */
  lemma {:induction false} DecodedIsNoLonger(bytes: seq<Byte>)
    ensures |Decode(bytes)| <= |bytes|
  {
    PushAllIsNoLonger(READY, bytes);
  }

  lemma {:induction false} PushAllIsNoLonger(d: Decoder, bytes: seq<Byte>)
    ensures var all := PushAll(d, bytes);
            |all.text + Flush(all.decoder)| <= |Flush(d)| + |bytes|
    decreases |bytes|
  {
    if bytes != [] {
      PushAllIsNoLonger(Push(d, bytes[0]).decoder, bytes[1..]);
    }
  }

  lemma EncodedScalarDecodes(c: Scalar)
    ensures PushAll(READY, EncodeScalar(c)) == Pushed(READY, [c])
  {
    if c < 0x80 {
      OneByte(READY, EncodeScalar(c)[0]);
    } else if c < 0x800 {
      TwoBytes(READY, EncodeScalar(c)[0], EncodeScalar(c)[1]);
    } else if c < 0x1_0000 {
      ThreeByteScalarDecodes(c);
    } else {
      FourByteScalarDecodes(c);
    }
  }

  lemma ThreeByteScalarDecodes(c: Scalar)
    requires 0x800 <= c < 0x1_0000
    ensures PushAll(READY, EncodeScalar(c)) == Pushed(READY, [c])
  {
    var s := EncodeScalar(c);
    var high := c / 64;
    assert high / 64 == c / 4096 && c == high * 64 + c % 64;
    assert Weight(1) == 1;
    var d: Decoder := Partial(1, 0x80, 0xBF, high);
    assert Push(d, s[2]) == Pushed(READY, [c]);
    assert Push(READY, s[0]).text == [];
    assert Push(Push(READY, s[0]).decoder, s[1]) == Pushed(d, []);
    hide EncodeScalar, Push;
    TwoBytes(READY, s[0], s[1]);
    OneByte(d, s[2]);
    PushAllConcat(READY, [s[0], s[1]], [s[2]]);
    assert s == [s[0], s[1]] + [s[2]];
  }

  lemma FourByteScalarDecodes(c: Scalar)
    requires 0x1_0000 <= c
    ensures PushAll(READY, EncodeScalar(c)) == Pushed(READY, [c])
  {
    var s := EncodeScalar(c);
    assert Weight(2) == 64;
    assert 16 <= c / 4096 < 0x110;
    var d: Decoder := Partial(2, 0x80, 0xBF, c / 4096);
    FirstHalf(c, d);
    SecondHalf(c, d);
    hide EncodeScalar, Push;
    TwoBytes(READY, s[0], s[1]);
    TwoBytes(d, s[2], s[3]);
    PushAllConcat(READY, [s[0], s[1]], [s[2], s[3]]);
    assert s == [s[0], s[1]] + [s[2], s[3]];
  }

  lemma FirstHalf(c: Scalar, d: Decoder)
    requires 0x1_0000 <= c && d == Partial(2, 0x80, 0xBF, c / 4096)
    ensures Push(Push(READY, EncodeScalar(c)[0]).decoder, EncodeScalar(c)[1]) == Pushed(d, [])
    ensures Push(READY, EncodeScalar(c)[0]).text == []
  {
    var higher := c / 4096;
    assert higher / 64 == c / 262144 && higher == higher / 64 * 64 + higher % 64;
  }

  lemma SecondHalf(c: Scalar, d: Decoder)
    requires 0x1_0000 <= c && d == Partial(2, 0x80, 0xBF, c / 4096)
    ensures Push(Push(d, EncodeScalar(c)[2]).decoder, EncodeScalar(c)[3]) == Pushed(READY, [c])
    ensures Push(d, EncodeScalar(c)[2]).text == []
  {
    var high := c / 64;
    assert high / 64 == c / 4096 && high == high / 64 * 64 + high % 64 && c == high * 64 + c % 64;
    assert Push(d, EncodeScalar(c)[2]) == Pushed(Partial(1, 0x80, 0xBF, high), []);
  }

  lemma OneByte(d: Decoder, b: Byte)
    ensures PushAll(d, [b]) == Push(d, b)
  {
    assert PushAll(Push(d, b).decoder, []) == Pushed(Push(d, b).decoder, []);
    assert [b][1..] == [];
  }

  lemma TwoBytes(d: Decoder, b: Byte, c: Byte)
    ensures PushAll(d, [b, c]) ==
            Pushed(Push(Push(d, b).decoder, c).decoder, Push(d, b).text + Push(Push(d, b).decoder, c).text)
  {
    OneByte(Push(d, b).decoder, c);
    assert [b, c][1..] == [c];
  }

  /** Decoding undoes encoding. */
  lemma {:induction false} DecodeUndoesEncode(text: seq<Scalar>)
    ensures PushAll(READY, Encode(text)) == Pushed(READY, text)
    ensures Decode(Encode(text)) == text
    decreases |text|
  {
    if text != [] {
      EncodedScalarDecodes(text[0]);
      DecodeUndoesEncode(text[1..]);
      PushAllConcat(READY, EncodeScalar(text[0]), Encode(text[1..]));
    }
  }

  // ---------------------------------------------------------------------------
  // Without a replacement nothing was lost

  /** No character is begun that a shorter encoding could hold. */
  ghost predicate IsShortest(d: Decoder) {
    && (d.needed == 1 ==> d.point >= 2)
    && (d.needed == 2 && d.point == 0 ==> d.lower >= 0xA0)
    && (d.needed == 3 && d.point == 0 ==> d.lower >= 0x90)
  }

  /** The bytes of the character begun; their number shows in the value read so far. */
  ghost function Seen(d: Decoder): seq<int> {
    if d.needed == 0 then []
    else if d.needed == 1 then
      if d.point < 0x20 then [0xC0 + d.point]
      else if d.point < 0x400 then [0xE0 + d.point / 64, 0x80 + d.point % 64]
      else [0xF0 + d.point / 4096, 0x80 + d.point / 64 % 64, 0x80 + d.point % 64]
    else if d.needed == 2 then
      if d.point < 0x10 then [0xE0 + d.point] else [0xF0 + d.point / 64, 0x80 + d.point % 64]
    else [0xF0 + d.point]
  }

  lemma PushLosesNothing(d: Decoder, b: Byte)
    requires IsShortest(d) && REPLACEMENT !in Push(d, b).text
    ensures IsShortest(Push(d, b).decoder)
    ensures Seen(d) + [b] == Encode(Push(d, b).text) + Seen(Push(d, b).decoder)
  {
    assert Encode([]) == [];
    if d.needed == 0 {
      LeadLosesNothing(b);
    } else if d.needed == 1 {
      LastLosesNothing(d, b);
    } else {
      assert Seen(d) + [b] == Seen(Push(d, b).decoder);
    }
  }

  lemma LeadLosesNothing(b: Byte)
    requires REPLACEMENT !in Lead(b).text
    ensures IsShortest(Lead(b).decoder)
    ensures [b] == Encode(Lead(b).text) + Seen(Lead(b).decoder)
  {
    assert b < 0x80 ==> Encode([b]) == EncodeScalar(b);
  }

  lemma LastLosesNothing(d: Decoder, b: Byte)
    requires d.needed == 1 && IsShortest(d) && REPLACEMENT !in Push(d, b).text
    ensures Push(d, b).decoder == READY
    ensures Seen(d) + [b] == Encode(Push(d, b).text)
  {
    var c := Push(d, b).text[0];
    assert Encode([c]) == EncodeScalar(c) + Encode([]);
    assert Encode([]) == [];
    hide Encode, IsSound;
    assert c / 64 == d.point && c % 64 == b - 0x80;
    assert c / 4096 == d.point / 64 && c / 262144 == d.point / 4096;
  }

  lemma {:induction false} PushAllLosesNothing(d: Decoder, bytes: seq<Byte>)
    requires IsShortest(d) && REPLACEMENT !in PushAll(d, bytes).text
    ensures Seen(d) + bytes == Encode(PushAll(d, bytes).text) + Seen(PushAll(d, bytes).decoder)
    decreases |bytes|
  {
    if bytes == [] {
      assert Encode(PushAll(d, bytes).text) == [];
    } else {
      hide IsShortest, Seen, Push;
      var first := Push(d, bytes[0]);
      var rest := PushAll(first.decoder, bytes[1..]);
      PushLosesNothing(d, bytes[0]);
      PushAllLosesNothing(first.decoder, bytes[1..]);
      EncodeConcat(first.text, rest.text);
      assert bytes == [bytes[0]] + bytes[1..];
      assert PushAll(d, bytes) == Pushed(rest.decoder, first.text + rest.text);
      hide Encode, PushAll;
      Chain(Seen(d), bytes[0], bytes[1..], Encode(first.text), Seen(first.decoder), Encode(rest.text), Seen(rest.decoder));
    }
  }

  lemma Chain(a: seq<int>, b: int, more: seq<int>, c: seq<int>, d: seq<int>, e: seq<int>, f: seq<int>)
    requires a + [b] == c + d && d + more == e + f
    ensures a + ([b] + more) == c + e + f
  {
    assert a + ([b] + more) == (a + [b]) + more;
    assert (c + d) + more == c + (d + more);
    assert c + (e + f) == c + e + f;
  }

  lemma {:induction false} EncodeConcat(a: seq<Scalar>, b: seq<Scalar>)
    ensures Encode(a + b) == Encode(a) + Encode(b)
    decreases |a|
  {
    if a == [] {
      assert a + b == b;
    } else {
      assert (a + b)[1..] == a[1..] + b;
      EncodeConcat(a[1..], b);
    }
  }

  /** Where the decoded text shows no replacement character, the input was its encoding. */
  lemma EncodeUndoesDecode(bytes: seq<Byte>)
    requires REPLACEMENT !in Decode(bytes)
    ensures Encode(Decode(bytes)) == bytes
  {
    var all := PushAll(READY, bytes);
    PushAllLosesNothing(READY, bytes);
    assert all.decoder.needed != 0 ==> REPLACEMENT in Flush(all.decoder);
    assert Seen(READY) == [] && Seen(all.decoder) == [];
    assert all.text + [] == all.text && [] + bytes == bytes;
  }

  // ---------------------------------------------------------------------------
  // Ill-formed input

  /** A character that breaks off costs one replacement, and nothing of what follows. */
  lemma BrokenCharactersAreReplaced(d: Decoder, text: seq<Scalar>)
    requires d.needed > 0
    ensures PushAll(d, Encode(text)).text + Flush(PushAll(d, Encode(text)).decoder) == [REPLACEMENT] + text
  {
    DecodeUndoesEncode(text);
    if text == [] {
      assert Encode(text) == [];
    } else {
      var b, more := EncodeScalar(text[0])[0], Encode(text)[1..];
      assert Encode(text) == [b] + more;
      BeginningBreaksOff(d, text[0]);
      hide *;
      OneBreaksOff(d, b, more);
      assert PushAll(d, Encode(text)).text == [REPLACEMENT] + text;
      NothingIsLeft(PushAll(d, Encode(text)).decoder);
      assert [REPLACEMENT] + text + [] == [REPLACEMENT] + text;
    }
  }

  lemma NothingIsLeft(d: Decoder)
    ensures d == READY ==> Flush(d) == []
  {
  }

  lemma OneBreaksOff(d: Decoder, b: Byte, more: seq<Byte>)
    requires Push(d, b) == Pushed(Push(READY, b).decoder, [REPLACEMENT] + Push(READY, b).text)
    ensures PushAll(d, [b] + more) ==
      Pushed(PushAll(READY, [b] + more).decoder, [REPLACEMENT] + PushAll(READY, [b] + more).text)
  {
    hide Push;
    assert ([b] + more)[1..] == more;
    var rest := PushAll(Push(READY, b).decoder, more);
    assert ([REPLACEMENT] + Push(READY, b).text) + rest.text == [REPLACEMENT] + (Push(READY, b).text + rest.text);
  }

  lemma BeginningBreaksOff(d: Decoder, c: Scalar)
    requires d.needed > 0
    ensures var b := EncodeScalar(c)[0];
      Push(d, b) == Pushed(Push(READY, b).decoder, [REPLACEMENT] + Push(READY, b).text)
  {
    var b: int := EncodeScalar(c)[0];
    assert b < 0x80 || 0xC0 <= b;
  }

  /** A byte that can begin no character is replaced by itself. */
  lemma StrayBytesAreReplaced(b: Byte, text: seq<Scalar>)
    requires 0x80 <= b <= 0xC1 || 0xF5 <= b
    ensures Decode([b] + Encode(text)) == [REPLACEMENT] + text
  {
    DecodeUndoesEncode(text);
    assert Push(READY, b) == Pushed(READY, [REPLACEMENT]);
    assert ([b] + Encode(text))[1..] == Encode(text);
  }
}
