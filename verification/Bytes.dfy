/** Byte strings and their lines, as the log and the frame readers see them. */
module Bytes {
  type byte = b: int | 0 <= b < 256

  const NewLine: byte := 10

  lemma Regroup(a: seq<byte>, b: seq<byte>, c: seq<byte>)
    ensures (a + b) + c == a + (b + c)
  {
  }

  function Line(text: seq<byte>): seq<byte> {
    text + [NewLine]
  }

  /** ASCII white space, as `bytes.strip` sees it. */
  predicate IsSpace(b: byte) {
    b == 32 || 9 <= b <= 13
  }

  /** The length of the first line: up to its line feed, or to the end of the file. */
  function LineLength(raw: seq<byte>): (n: nat)
    ensures n <= |raw| && NewLine !in raw[..n] && (n < |raw| ==> raw[n] == NewLine)
  {
    if raw == [] || raw[0] == NewLine then 0
    else
      var n := 1 + LineLength(raw[1..]);
      assert raw[..n] == [raw[0]] + raw[1..][..n - 1];
      n
  }

  function Behind(raw: seq<byte>, n: nat): seq<byte>
    requires n <= |raw|
  {
    if n < |raw| then raw[n + 1..] else []
  }

  method FindLineFeed(raw: seq<byte>) returns (n: nat)
    ensures n == LineLength(raw)
  {
    n := 0;
    while n < |raw| && raw[n] != NewLine
      invariant n <= |raw| && LineLength(raw) == n + LineLength(raw[n..])
    {
      assert raw[n..][1..] == raw[n + 1..];
      n := n + 1;
    }
  }

  lemma {:induction false} LineLengthOf(text: seq<byte>, tail: seq<byte>)
    requires NewLine !in text && (tail != [] ==> tail[0] == NewLine)
    ensures LineLength(text + tail) == |text|
  {
    if text != [] {
      assert (text + tail)[1..] == text[1..] + tail;
      LineLengthOf(text[1..], tail);
    }
  }

  lemma CompleteLine(text: seq<byte>, tail: seq<byte>)
    requires NewLine !in text
    ensures var raw := Line(text) + tail;
            && LineLength(raw) == |text| && raw[..|text|] == text && Behind(raw, |text|) == tail
            && |raw| - |tail| == |Line(text)|
  {
    LineLengthOf(text, [NewLine] + tail);
    assert Line(text) + tail == text + ([NewLine] + tail);
  }
}
