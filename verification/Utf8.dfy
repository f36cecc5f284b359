/**
 How a long tool result is cut (`format_result` in `tools/mcp/client.py`), over UTF-8 as section 3
 of RFC 3629 defines it. A character is its scalar value.
 */
module Utf8 {
  import opened Bytes
  import opened Outcomes

  type scalar = c: int | 0 <= c < 0x110000 && !(0xD800 <= c < 0xE000)

  /** `max_result_bytes`. */
  const MaxResultBytes: nat := 200_000

  function EncodeOne(c: scalar): seq<byte> {
    if c < 0x80 then [c]
    else if c < 0x800 then [0xC0 + c / 64, 0x80 + c % 64]
    else if c < 0x10000 then [0xE0 + c / 4096, 0x80 + c / 64 % 64, 0x80 + c % 64]
    else [0xF0 + c / 262144, 0x80 + c / 4096 % 64, 0x80 + c / 64 % 64, 0x80 + c % 64]
  }

  function Encode(text: seq<scalar>): seq<byte> {
    if text == [] then [] else EncodeOne(text[0]) + Encode(text[1..])
  }

  /** A letter, an accented one, the euro sign and a character outside the basic plane, as RFC 3629 has them. */
  lemma EncodesAsStandard()
    ensures EncodeOne(0x41) == [0x41] && EncodeOne(0xE9) == [0xC3, 0xA9]
    ensures EncodeOne(0x20AC) == [0xE2, 0x82, 0xAC] && EncodeOne(0x1F600) == [0xF0, 0x9F, 0x98, 0x80]
  {
  }

  /** The top two bits are `10`: `b & 0xC0 == 0x80`. */
  predicate IsContinuation(b: byte) {
    b / 64 == 2
  }

  // ----- Strict decoding -----

  function Expected(first: byte): nat {
    if first < 0x80 then 1
    else if 0xC2 <= first < 0xE0 then 2
    else if 0xE0 <= first < 0xF0 then 3
    else if 0xF0 <= first < 0xF5 then 4
    else 0
  }

  predicate WellFormedStart(b: seq<byte>) {
    && b != [] && 0 < Expected(b[0]) <= |b|
    && forall i :: 0 < i < Expected(b[0]) ==> IsContinuation(b[i])
  }

  function Join2(b0: int, b1: int): int {
    (b0 - 0xC0) * 64 + (b1 - 0x80)
  }

  function Join3(b0: int, b1: int, b2: int): int {
    (b0 - 0xE0) * 4096 + (b1 - 0x80) * 64 + (b2 - 0x80)
  }

  function Join4(b0: int, b1: int, b2: int, b3: int): int {
    (b0 - 0xF0) * 262144 + (b1 - 0x80) * 4096 + (b2 - 0x80) * 64 + (b3 - 0x80)
  }

  function ValueOf(b: seq<byte>): int
    requires WellFormedStart(b)
  {
    match Expected(b[0])
    case 1 => b[0]
    case 2 => Join2(b[0], b[1])
    case 3 => Join3(b[0], b[1], b[2])
    case _ => Join4(b[0], b[1], b[2], b[3])
  }

  /** The first character; a surrogate or a longer form than needed is refused. */
  function DecodeOne(b: seq<byte>): Option<scalar> {
    if !WellFormedStart(b) then None
    else
      var c := ValueOf(b);
      if 0 <= c < 0x110000 && !(0xD800 <= c < 0xE000) && |EncodeOne(c)| == Expected(b[0]) then Some(c) else None
  }

  function Decode(b: seq<byte>): Option<seq<scalar>> {
    if b == [] then Some([])
    else match DecodeOne(b)
      case None => None
      case Some(c) =>
        match Decode(b[Expected(b[0])..])
        case None => None
        case Some(rest) => Some([c] + rest)
  }

  lemma EncodeOneShape(c: scalar)
    ensures var b := EncodeOne(c);
            && 1 <= |b| <= 4 && !IsContinuation(b[0]) && Expected(b[0]) == |b|
            && forall i :: 0 < i < |b| ==> IsContinuation(b[i])
  {
  }

  lemma Join2Splits(b0: int, b1: int)
    requires 0xC0 <= b0 < 0xE0 && 0x80 <= b1 < 0xC0
    ensures var c := Join2(b0, b1); b0 == 0xC0 + c / 64 && b1 == 0x80 + c % 64
  {
  }

  lemma Join3Splits(b0: int, b1: int, b2: int)
    requires 0xE0 <= b0 < 0xF0 && 0x80 <= b1 < 0xC0 && 0x80 <= b2 < 0xC0
    ensures var c := Join3(b0, b1, b2); b0 == 0xE0 + c / 4096 && b1 == 0x80 + c / 64 % 64 && b2 == 0x80 + c % 64
  {
    var c := Join3(b0, b1, b2);
    assert c / 64 == (b0 - 0xE0) * 64 + (b1 - 0x80);
  }

  lemma Join4Splits(b0: int, b1: int, b2: int, b3: int)
    requires 0xF0 <= b0 < 0xF8 && 0x80 <= b1 < 0xC0 && 0x80 <= b2 < 0xC0 && 0x80 <= b3 < 0xC0
    ensures var c := Join4(b0, b1, b2, b3);
            && b0 == 0xF0 + c / 262144 && b1 == 0x80 + c / 4096 % 64 && b2 == 0x80 + c / 64 % 64 && b3 == 0x80 + c % 64
  {
    var c := Join4(b0, b1, b2, b3);
    assert c / 64 == (b0 - 0xF0) * 4096 + (b1 - 0x80) * 64 + (b2 - 0x80);
    assert c / 4096 == (b0 - 0xF0) * 64 + (b1 - 0x80);
  }

  lemma {:induction false} JoinsEncoded(c: scalar)
    ensures var b := EncodeOne(c);
            c == match |b| case 1 => b[0] case 2 => Join2(b[0], b[1]) case 3 => Join3(b[0], b[1], b[2])
                 case _ => Join4(b[0], b[1], b[2], b[3])
  {
    assert c / 4096 == c / 64 / 64 && c / 262144 == c / 4096 / 64;
  }

  lemma {:induction false} DecodeOneEncoded(c: scalar, tail: seq<byte>)
    ensures DecodeOne(EncodeOne(c) + tail) == Some(c)
  {
    var one, b := EncodeOne(c), EncodeOne(c) + tail;
    EncodeOneShape(c);
    JoinsEncoded(c);
    assert forall i :: 0 <= i < |one| ==> b[i] == one[i];
    assert WellFormedStart(b);
    assert ValueOf(b) == c;
  }

  lemma {:induction false} DecodedIsEncoded(b: seq<byte>)
    requires DecodeOne(b).Some?
    ensures EncodeOne(DecodeOne(b).value) == b[..Expected(b[0])]
  {
    match Expected(b[0]) {
      case 1 =>
      case 2 => Join2Splits(b[0], b[1]);
      case 3 => Join3Splits(b[0], b[1], b[2]);
      case _ => Join4Splits(b[0], b[1], b[2], b[3]);
    }
  }

  /** Encoding and decoding are inverse: decoding answers exactly on encodings. */
  lemma {:induction false} EncodeThenDecode(text: seq<scalar>)
    ensures Decode(Encode(text)) == Some(text)
  {
    if text != [] {
      EncodeThenDecode(text[1..]);
      DecodeOneEncoded(text[0], Encode(text[1..]));
      EncodeOneShape(text[0]);
      assert Encode(text)[|EncodeOne(text[0])|..] == Encode(text[1..]);
      assert text == [text[0]] + text[1..];
    }
  }

  lemma EncodeCons(c: scalar, rest: seq<scalar>)
    ensures Encode([c] + rest) == EncodeOne(c) + Encode(rest)
  {
    assert ([c] + rest)[1..] == rest;
  }

  lemma {:induction false} DecodeThenEncode(b: seq<byte>)
    requires Decode(b).Some?
    ensures Encode(Decode(b).value) == b
    decreases |b|
  {
    if b != [] {
      var n := Expected(b[0]);
      DecodedIsEncoded(b);
      DecodeThenEncode(b[n..]);
      EncodeCons(DecodeOne(b).value, Decode(b[n..]).value);
      assert b == b[..n] + b[n..];
    }
  }

  // ----- The cut -----

  lemma {:induction false} EncodeConcat(a: seq<scalar>, b: seq<scalar>)
    ensures Encode(a + b) == Encode(a) + Encode(b)
  {
    if a == [] {
      assert a + b == b;
    } else {
      EncodeConcat(a[1..], b);
      assert (a + b)[1..] == a[1..] + b;
      Regroup(EncodeOne(a[0]), Encode(a[1..]), Encode(b));
    }
  }

  /** How many characters fit into `cap` bytes. */
  function Fitting(text: seq<scalar>, cap: nat): nat {
    if text == [] || |EncodeOne(text[0])| > cap then 0
    else 1 + Fitting(text[1..], cap - |EncodeOne(text[0])|)
  }

  /** Those characters fit, and one more would not. */
  lemma {:induction false} FittingIsLongest(text: seq<scalar>, cap: nat)
    ensures var k := Fitting(text, cap);
            && k <= |text| && |Encode(text[..k])| <= cap
            && (k < |text| ==> cap < |Encode(text[..k + 1])|)
  {
    if text != [] {
      var first, rest := text[0], text[1..];
      if |EncodeOne(first)| <= cap {
        FittingIsLongest(rest, cap - |EncodeOne(first)|);
        var k := Fitting(text, cap);
        assert text[..k][1..] == rest[..k - 1];
        assert k < |text| ==> text[..k + 1][1..] == rest[..k];
      } else {
        assert text[..1] == [first] && [first][1..] == [];
      }
    }
  }

  lemma CharacterAt(text: seq<scalar>, k: nat)
    requires k < |text|
    ensures var start := |Encode(text[..k])|;
            && start + |EncodeOne(text[k])| <= |Encode(text)|
            && |Encode(text[..k + 1])| == start + |EncodeOne(text[k])|
            && Encode(text)[..start] == Encode(text[..k])
            && Encode(text)[start..start + |EncodeOne(text[k])|] == EncodeOne(text[k])
  {
    var before, one, behind := text[..k], [text[k]], text[k + 1..];
    assert one[1..] == [];
    assert Encode(one) == EncodeOne(text[k]) + [] == EncodeOne(text[k]);
    assert text == before + one + behind && text[..k + 1] == before + one;
    EncodeConcat(before + one, behind);
    EncodeConcat(before, one);
  }

  /** Where the longest prefix that fits ends. */
  function CutPoint(text: seq<scalar>, cap: nat): nat {
    FittingIsLongest(text, cap);
    |Encode(text[..Fitting(text, cap)])|
  }

  lemma AtCutPoint(text: seq<scalar>, cap: nat)
    requires cap < |Encode(text)|
    ensures var k, start := Fitting(text, cap), CutPoint(text, cap);
            && k < |text| && start <= cap < start + |EncodeOne(text[k])| <= |Encode(text)|
            && Encode(text)[..start] == Encode(text[..k])
            && Encode(text)[start..start + |EncodeOne(text[k])|] == EncodeOne(text[k])
            && cap < |Encode(text[..k + 1])|
  {
    NotAllFits(text, cap);
    FittingIsLongest(text, cap);
    CharacterAt(text, Fitting(text, cap));
  }

  lemma NotAllFits(text: seq<scalar>, cap: nat)
    requires cap < |Encode(text)|
    ensures Fitting(text, cap) < |text|
  {
    FittingIsLongest(text, cap);
    assert text[..|text|] == text;
  }

  /** Inside the character that does not fit every byte is a continuation, at its start none is. */
  lemma CutStopsAtCharacter(text: seq<scalar>, cap: nat, cut: nat)
    requires cap < |Encode(text)| && CutPoint(text, cap) <= cut <= cap
    ensures IsContinuation(Encode(text)[cut]) <==> cut > CutPoint(text, cap)
    ensures cap - CutPoint(text, cap) <= 3
  {
    var k, start := Fitting(text, cap), CutPoint(text, cap);
    AtCutPoint(text, cap);
    InsideCharacter(Encode(text), start, text[k], cut);
  }

  lemma InsideCharacter(encoded: seq<byte>, start: nat, c: scalar, cut: nat)
    requires start <= cut < start + |EncodeOne(c)| <= |encoded|
    requires encoded[start..start + |EncodeOne(c)|] == EncodeOne(c)
    ensures IsContinuation(encoded[cut]) <==> cut > start
    ensures cut - start <= 3
  {
    EncodeOneShape(c);
    assert encoded[cut] == encoded[start..start + |EncodeOne(c)|][cut - start];
  }

  /**
   The text of a tool result: whole when it fits, else the longest prefix that fits. The loop backs
   up at most three bytes and the bytes it leaves always decode.
   */
  method CutText(output: seq<scalar>, cap: nat) returns (kept: seq<scalar>, backedUp: nat)
    ensures |Encode(output)| <= cap ==> kept == output && backedUp == 0
    ensures |Encode(output)| > cap ==>
              && kept < output && |Encode(kept)| <= cap < |Encode(output[..|kept| + 1])|
              && backedUp == cap - |Encode(kept)| <= 3
  {
    var encoded := Encode(output);
    if |encoded| <= cap {
      return output, 0;
    }
    AtCutPoint(output, cap);
    var cut := FindBoundary(output, encoded, cap);
    CutStopsAtCharacter(output, cap, cut);
    EncodeThenDecode(output[..Fitting(output, cap)]);
    kept, backedUp := Decode(encoded[..cut]).value, cap - cut;
  }

  method FindBoundary(ghost output: seq<scalar>, encoded: seq<byte>, cap: nat) returns (cut: nat)
    requires encoded == Encode(output) && cap < |encoded|
    ensures cut == CutPoint(output, cap)
  {
    AtCutPoint(output, cap);
    cut := cap;
    while cut > 0 && IsContinuation(encoded[cut])
      invariant CutPoint(output, cap) <= cut <= cap
    {
      CutStopsAtCharacter(output, cap, cut);
      cut := cut - 1;
    }
    CutStopsAtCharacter(output, cap, cut);
  }

  /** The mark behind a result that was cut. */
  const TruncatedMark: seq<scalar> := [10, 46, 46, 46, 32, 116, 114, 117, 110, 99, 97, 116, 101, 100]

  /** What a reader sees behind a cut output, and where it is cut. */
  lemma CutIsMarked()
    ensures MaxResultBytes == 200_000 && |TruncatedMark| == |"\n... truncated"|
    ensures forall i :: 0 <= i < |TruncatedMark| ==> TruncatedMark[i] == "\n... truncated"[i] as int
  {
  }

  /** The end of `format_result`: at most the cap of the output itself, and the mark if that is not all. */
  method FormatOutput(output: seq<scalar>) returns (text: seq<scalar>)
    ensures |Encode(output)| <= MaxResultBytes ==> text == output
    ensures |Encode(output)| > MaxResultBytes ==>
              exists n :: 0 <= n < |output| && text == output[..n] + TruncatedMark
                          && |Encode(output[..n])| <= MaxResultBytes < |Encode(output[..n + 1])|
                          && MaxResultBytes - |Encode(output[..n])| <= 3
  {
    var kept, backedUp := CutText(output, MaxResultBytes);
    if |Encode(output)| <= MaxResultBytes {
      return kept;
    }
    assert kept == output[..|kept|];
    text := kept + TruncatedMark;
  }
}
