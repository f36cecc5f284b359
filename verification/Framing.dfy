/**
 Content-Length framing, the same in the LSP and the MCP client: the frame writer, the header
 reader and the read loop over a byte stream that ends. A body stands for one JSON text.
 */
module Framing {
  import opened Bytes
  import opened Outcomes

  /** `max_message_bytes`. */
  const MaxMessageBytes: nat := 32 * 1024 * 1024

  datatype Reason = Closed | InvalidLength | ExceedsLimit | CutShort | WriteTimedOut

  function Ascii(s: string): seq<byte>
    requires forall i :: 0 <= i < |s| ==> s[i] < 128 as char
  {
    seq(|s|, i requires 0 <= i < |s| => s[i] as int as byte)
  }

  // ----- Decimal numbers -----

  predicate IsDigit(b: byte) {
    48 <= b <= 57
  }

  /** `%d` of a non-negative number. */
  function Decimal(n: nat): seq<byte> {
    (if n < 10 then [] else Decimal(n / 10)) + [48 + n % 10]
  }

  /** The digits of `int()`, with single underscores between them; `after` says a digit came last. */
  function DigitsFrom(value: nat, after: bool, s: seq<byte>): Option<nat>
    decreases |s|
  {
    if s == [] then (if after then Some(value) else None)
    else if IsDigit(s[0]) then DigitsFrom(10 * value + (s[0] - 48), true, s[1..])
    else if s[0] == 95 && after then DigitsFrom(value, false, s[1..])
    else None
  }

  /** `int()` on bytes without white space around them; `None` is its `ValueError`. */
  function ParseInt(s: seq<byte>): Option<int> {
    if s != [] && s[0] == 45 then
      var digits := DigitsFrom(0, false, s[1..]);
      if digits.None? then None else Some(0 - digits.value)
    else if s != [] && s[0] == 43 then DigitsFrom(0, false, s[1..])
    else DigitsFrom(0, false, s)
  }

  lemma {:induction false} DecimalDigits(n: nat)
    ensures Decimal(n) != [] && forall b :: b in Decimal(n) ==> IsDigit(b)
  {
    if n >= 10 {
      DecimalDigits(n / 10);
    }
  }

  lemma {:induction false} DigitsPush(value: nat, after: bool, s: seq<byte>, d: byte)
    requires (forall b :: b in s ==> IsDigit(b)) && IsDigit(d)
    ensures var before := if s == [] then Some(value) else DigitsFrom(value, after, s);
            before.Some? && DigitsFrom(value, after, s + [d]) == Some(10 * before.value + (d - 48))
    decreases |s|
  {
    if s == [] {
      assert [] + [d] == [d];
      assert DigitsFrom(10 * value + (d - 48), true, []) == Some(10 * value + (d - 48));
    } else {
      assert s[0] in s;
      DigitsPush(10 * value + (s[0] - 48), true, s[1..], d);
      assert (s + [d])[1..] == s[1..] + [d];
    }
  }

  lemma {:induction false} DigitsOfDecimal(n: nat)
    ensures DigitsFrom(0, false, Decimal(n)) == Some(n)
  {
    if n < 10 {
      assert Decimal(n) == [48 + n];
      DigitsPush(0, false, [], 48 + n);
      assert [] + [48 + n] == Decimal(n);
    } else {
      DigitsOfDecimal(n / 10);
      DecimalDigits(n / 10);
      DigitsPush(0, false, Decimal(n / 10), 48 + n % 10);
    }
  }

  /** Printing and parsing a length are inverse. */
  lemma DecimalRoundTrips(n: nat)
    ensures ParseInt(Decimal(n)) == Some(n)
  {
    DigitsOfDecimal(n);
    DecimalDigits(n);
    assert Decimal(n)[0] in Decimal(n);
  }

  // ----- The header reader -----

  function StripLeft(s: seq<byte>): seq<byte> {
    if s != [] && IsSpace(s[0]) then StripLeft(s[1..]) else s
  }

  function StripRight(s: seq<byte>): seq<byte> {
    if s != [] && IsSpace(s[|s| - 1]) then StripRight(s[..|s| - 1]) else s
  }

  function Strip(s: seq<byte>): seq<byte> {
    StripRight(StripLeft(s))
  }

  function Lower(s: seq<byte>): seq<byte> {
    seq(|s|, i requires 0 <= i < |s| => if 65 <= s[i] <= 90 then (s[i] + 32) as byte else s[i])
  }

  const Name := "content-length:"

  predicate NamesLength(text: seq<byte>) {
    |text| >= |Name| && Lower(text[..|Name|]) == Ascii(Name)
  }

  datatype Header = Header(length: nat, rest: seq<byte>) | Raised(reason: Reason)

  /** The checks behind the blank line that ends a header. */
  function Checked(length: int, rest: seq<byte>): Header {
    if length <= 0 then Raised(InvalidLength)
    else if length > MaxMessageBytes then Raised(ExceedsLimit)
    else Header(length, rest)
  }

  /** `read_header`, from the point where `length` is the last length seen. */
  function ScanHeader(raw: seq<byte>, length: int): (h: Header)
    ensures h.Header? ==> 0 < h.length <= MaxMessageBytes && |h.rest| < |raw|
    decreases |raw|
  {
    if raw == [] then Raised(Closed)
    else
      var n := LineLength(raw);
      var text, rest := Strip(raw[..n]), Behind(raw, n);
      if text == [] then Checked(length, rest)
      else if !NamesLength(text) then ScanHeader(rest, length)
      else match ParseInt(Strip(text[|Name|..]))
        case None => Raised(InvalidLength)
        case Some(value) => ScanHeader(rest, value)
  }

  datatype Reading = Reading(bodies: seq<seq<byte>>, reason: Reason)

  function Before(bodies: seq<seq<byte>>, r: Reading): Reading {
    Reading(bodies + r.bodies, r.reason)
  }

  /** Every body the read loop delivers, and what stops it. */
  function ReadAll(raw: seq<byte>): Reading
    decreases |raw|
  {
    match ScanHeader(raw, 0)
    case Raised(reason) => Reading([], reason)
    case Header(length, rest) =>
      if |rest| < length then Reading([], CutShort)
      else Before([rest[..length]], ReadAll(rest[length..]))
  }

  /** The part of `asyncio.StreamReader` in use, over a stream whose end is known. */
  class StreamReader {
    var unread: seq<byte>

    constructor (unread: seq<byte>)
      ensures this.unread == unread
    {
      this.unread := unread;
    }

    /** A line with its line feed, what is left of the stream, or nothing at the end. */
    method ReadLine() returns (line: seq<byte>)
      modifies this
      ensures unread == Behind(old(unread), LineLength(old(unread))) && |unread| <= |old(unread)|
      ensures line == old(unread)[..|old(unread)| - |unread|]
    {
      var n := FindLineFeed(unread);
      line := if n < |unread| then unread[..n + 1] else unread;
      unread := unread[|line|..];
    }

    method ReadExactly(n: nat) returns (r: Option<seq<byte>>)
      modifies this
      ensures if |old(unread)| < n then r == None && unread == []
              else r == Some(old(unread)[..n]) && unread == old(unread)[n..]
    {
      if |unread| < n {
        unread := [];
        return None;
      }
      r := Some(unread[..n]);
      unread := unread[n..];
    }
  }

  lemma StripLeftPush(s: seq<byte>, b: byte)
    requires IsSpace(b)
    ensures StripLeft(s + [b]) == (if StripLeft(s) == [] then [] else StripLeft(s) + [b])
  {
    if s == [] {
      assert [] + [b] == [b];
      assert StripLeft([b]) == StripLeft([b][1..]) == [];
    } else {
      assert (s + [b])[1..] == s[1..] + [b];
    }
  }

  /** White space at the end, such as the line feed itself, does not matter to `strip`. */
  lemma StripPush(s: seq<byte>, b: byte)
    requires IsSpace(b)
    ensures Strip(s + [b]) == Strip(s)
  {
    StripLeftPush(s, b);
    if StripLeft(s) != [] {
      var t := StripLeft(s) + [b];
      assert t[..|t| - 1] == StripLeft(s);
    }
  }

  lemma LineText(raw: seq<byte>, line: seq<byte>)
    requires raw != [] && line == raw[..|raw| - |Behind(raw, LineLength(raw))|]
    ensures line != [] && Strip(line) == Strip(raw[..LineLength(raw)])
  {
    var n := LineLength(raw);
    if n < |raw| {
      assert line == raw[..n] + [NewLine];
      StripPush(raw[..n], NewLine);
    }
  }

  method ReadHeader(reader: StreamReader) returns (r: Result<nat, Reason>)
    modifies reader
    ensures match ScanHeader(old(reader.unread), 0)
            case Header(length, rest) => r == Ok(length) && reader.unread == rest
            case Raised(reason) => r == Err(reason)
  {
    var length := 0;
    ghost var all := reader.unread;
    while true
      invariant ScanHeader(reader.unread, length) == ScanHeader(all, 0)
      decreases |reader.unread|
    {
      ghost var raw := reader.unread;
      var line := reader.ReadLine();
      if line == [] {
        return Err(Closed);
      }
      LineText(raw, line);
      var text := Strip(line);
      if text == [] {
        break;
      }
      if NamesLength(text) {
        var parsed := ParseInt(Strip(text[|Name|..]));
        if parsed.None? {
          return Err(InvalidLength);
        }
        length := parsed.value;
      }
    }
    if length <= 0 {
      return Err(InvalidLength);
    }
    if length > MaxMessageBytes {
      return Err(ExceedsLimit);
    }
    r := Ok(length);
  }

  // ----- The connection -----

  const HeaderStart := "Content-Length: "

  const LineBreak: seq<byte> := [13, 10]

  function HeaderText(length: nat): seq<byte> {
    Ascii(HeaderStart) + Decimal(length)
  }

  function Frame(body: seq<byte>): seq<byte> {
    HeaderText(|body|) + LineBreak + LineBreak + body
  }

  function Stream(bodies: seq<seq<byte>>): seq<byte> {
    if bodies == [] then [] else Frame(bodies[0]) + Stream(bodies[1..])
  }

  /** One end of a connection: what it has written, what it has been handed, and why it stopped. */
  class Connection {
    const reader: StreamReader
    var sent: seq<byte>
    var dispatched: seq<seq<byte>>
    var error: Option<Reason>

    constructor (reader: StreamReader)
      ensures this.reader == reader && sent == [] && dispatched == [] && error == None
    {
      this.reader, sent, dispatched, error := reader, [], [], None;
    }

    /**
     A connection that has stopped refuses the message and raises what stopped it. `stalls` says that
     the pipe does not drain in time, which stops the connection; the MCP client waits instead.
     */
    method Write(body: seq<byte>, stalls: bool) returns (raised: Option<Reason>)
      modifies this`sent, this`error
      ensures raised == error == if old(error).Some? then old(error) else if stalls then Some(WriteTimedOut) else None
      ensures sent == if old(error).None? then old(sent) + Frame(body) else old(sent)
    {
      if error.Some? {
        return error;
      }
      sent := sent + Frame(body);
      if stalls {
        error := Some(WriteTimedOut);
      }
      raised := error;
    }

    method ReadLoop()
      modifies this`dispatched, this`error, reader
      ensures dispatched == old(dispatched) + ReadAll(old(reader.unread)).bodies
      ensures error == Some(ReadAll(old(reader.unread)).reason)
    {
      ghost var before := Reading(dispatched, Closed).bodies;
      ghost var all := ReadAll(reader.unread);
      assert Before([], all).bodies == all.bodies;
      ghost var read: seq<seq<byte>> := [];
      while true
        invariant dispatched == before + read
        invariant Before(read, ReadAll(reader.unread)) == all
        decreases |reader.unread|
      {
        ghost var raw := reader.unread;
        var length := ReadHeader(reader);
        if length.Err? {
          error := Some(length.error);
          return;
        }
        ghost var rest := reader.unread;
        var body := reader.ReadExactly(length.value);
        if body.None? {
          error := Some(CutShort);
          return;
        }
        BeforeTwice(read, [body.value], ReadAll(reader.unread));
        read := read + [body.value];
        dispatched := dispatched + [body.value];
      }
    }
  }

  lemma BeforeTwice(a: seq<seq<byte>>, b: seq<seq<byte>>, r: Reading)
    ensures Before(a, Before(b, r)) == Before(a + b, r)
  {
    assert a + (b + r.bodies) == a + b + r.bodies;
  }

  // ----- What reading recovers -----

  lemma StripClean(s: seq<byte>)
    requires s != [] && !IsSpace(s[0]) && !IsSpace(s[|s| - 1])
    ensures Strip(s) == s && Strip([32] + s) == s
  {
    assert ([32] + s)[1..] == s;
    assert StripLeft([32] + s) == StripLeft(s);
  }

  lemma HeaderNames(digits: seq<byte>)
    ensures NamesLength(Ascii(HeaderStart) + digits)
  {
    var text := Ascii(HeaderStart) + digits;
    assert |Name| <= |HeaderStart|;
    forall i | 0 <= i < |Name|
      ensures Lower(text[..|Name|])[i] == Ascii(Name)[i]
    {
      assert text[i] == HeaderStart[i] as int;
    }
  }

  lemma HeaderStrips(digits: seq<byte>)
    requires digits != [] && IsDigit(digits[0]) && IsDigit(digits[|digits| - 1])
    ensures var text := Ascii(HeaderStart) + digits;
            Strip(text) == text && Strip(text[|Name|..]) == digits
  {
    var text := Ascii(HeaderStart) + digits;
    assert Strip(text[|Name|..]) == digits by {
      assert text[|Name|..] == [32] + digits;
      StripClean(digits);
    }
    assert text[0] == 67;
    StripClean(text);
  }

  /** A header line as the reader sees it: one line, clean at both ends, naming `length`. */
  predicate Announces(text: seq<byte>, length: nat) {
    && NewLine !in text && Strip(text) == text
    && NamesLength(text) && ParseInt(Strip(text[|Name|..])) == Some(length)
  }

  lemma HeaderIsOneLine(digits: seq<byte>)
    requires forall b :: b in digits ==> IsDigit(b)
    ensures NewLine !in Ascii(HeaderStart) + digits
  {
    assert forall i :: 0 <= i < |HeaderStart| ==> Ascii(HeaderStart)[i] >= 32;
  }

  lemma HeaderAnnounces(length: nat)
    ensures Announces(HeaderText(length), length)
  {
    var digits := Decimal(length);
    assert IsDigit(digits[0]) && IsDigit(digits[|digits| - 1]) && forall b :: b in digits ==> IsDigit(b) by {
      DecimalDigits(length);
    }
    HeaderStrips(digits);
    HeaderNames(digits);
    HeaderIsOneLine(digits);
    DecimalRoundTrips(length);
  }

  /** What one complete line does. */
  lemma ScanLine(line: seq<byte>, rest: seq<byte>, length: int)
    requires NewLine !in line
    ensures ScanHeader(Line(line) + rest, length) ==
            var text := Strip(line);
            if text == [] then Checked(length, rest)
            else if !NamesLength(text) then ScanHeader(rest, length)
            else match ParseInt(Strip(text[|Name|..]))
              case None => Raised(InvalidLength)
              case Some(value) => ScanHeader(rest, value)
  {
    CompleteLine(line, rest);
  }

  lemma ScanBlank(rest: seq<byte>, length: int)
    ensures ScanHeader(LineBreak + rest, length) == Checked(length, rest)
  {
    ScanLine([13], rest, length);
    assert LineBreak + rest == Line([13]) + rest;
    StripPush([], 13);
    assert [] + [13] == [13];
  }

  lemma ScanAnnounced(text: seq<byte>, length: nat, rest: seq<byte>)
    requires Announces(text, length)
    ensures ScanHeader(Line(text + [13]) + rest, 0) == ScanHeader(rest, length)
  {
    StripPush(text, 13);
    ScanLine(text + [13], rest, 0);
  }

  lemma HeaderBytes(text: seq<byte>, rest: seq<byte>)
    ensures text + LineBreak + LineBreak + rest == Line(text + [13]) + (LineBreak + rest)
  {
  }

  /** The header of a frame is read as the length it was printed from, subject to the checks. */
  lemma {:induction false} ScanFrameHeader(text: seq<byte>, length: nat, rest: seq<byte>)
    requires Announces(text, length)
    ensures ScanHeader(text + LineBreak + LineBreak + rest, 0) == Checked(length, rest)
  {
    HeaderBytes(text, rest);
    ScanAnnounced(text, length, LineBreak + rest);
    ScanBlank(rest, length);
  }

  lemma ReadFrame(body: seq<byte>, tail: seq<byte>)
    ensures ReadAll(Frame(body) + tail)
         == match Checked(|body|, [])
            case Raised(reason) => Reading([], reason)
            case Header(_, _) => Before([body], ReadAll(tail))
  {
    HeaderAnnounces(|body|);
    ScanFrameHeader(HeaderText(|body|), |body|, body + tail);
    assert Frame(body) + tail == HeaderText(|body|) + LineBreak + LineBreak + (body + tail);
    assert (body + tail)[..|body|] == body && (body + tail)[|body|..] == tail;
  }

  predicate Sendable(bodies: seq<seq<byte>>) {
    forall i :: 0 <= i < |bodies| ==> 1 <= |bodies[i]| <= MaxMessageBytes
  }

  /** Frames are read one by one, whatever is behind them. */
  lemma {:induction false} ReadPastStream(bodies: seq<seq<byte>>, tail: seq<byte>)
    requires Sendable(bodies)
    ensures ReadAll(Stream(bodies) + tail) == Before(bodies, ReadAll(tail))
  {
    if bodies == [] {
      assert [] + tail == tail && [] + ReadAll(tail).bodies == ReadAll(tail).bodies;
    } else {
      ReadPastStream(bodies[1..], tail);
      Regroup(Frame(bodies[0]), Stream(bodies[1..]), tail);
      ReadFrame(bodies[0], Stream(bodies[1..]) + tail);
      BeforeTwice([bodies[0]], bodies[1..], ReadAll(tail));
      assert [bodies[0]] + bodies[1..] == bodies;
    }
  }

  lemma SendableFirst(bodies: seq<seq<byte>>)
    requires bodies != []
    ensures Sendable(bodies) <==> 1 <= |bodies[0]| <= MaxMessageBytes && Sendable(bodies[1..])
  {
    forall i | 0 < i < |bodies|
      ensures bodies[i] == bodies[1..][i - 1]
    {
    }
  }

  /**
   The round trip: bodies written one after the other are read back the same, until the stream
   closes, exactly when each has from 1 byte to 32 MiB.
   */
  lemma {:induction false} StreamRoundTripsExactly(bodies: seq<seq<byte>>)
    ensures ReadAll(Stream(bodies)) == Reading(bodies, Closed) <==> Sendable(bodies)
  {
    if bodies != [] {
      SendableFirst(bodies);
      StreamRoundTripsExactly(bodies[1..]);
      ReadFrame(bodies[0], Stream(bodies[1..]));
      assert bodies == [bodies[0]] + bodies[1..];
      var behind := ReadAll(Stream(bodies[1..])).bodies;
      assert ([bodies[0]] + behind)[1..] == behind;
    }
  }

  // ----- A stream that ends early -----

  lemma OneLineIsNoHeader(raw: seq<byte>)
    requires NewLine !in raw
    ensures ScanHeader(raw, 0).Raised?
  {
    if raw != [] {
      LineLengthOf(raw, []);
      assert raw + [] == raw;
    }
  }

  lemma CutInHeader(text: seq<byte>, length: nat, cut: nat)
    requires Announces(text, length) && cut < |text + LineBreak + LineBreak|
    ensures ReadAll((text + LineBreak + LineBreak)[..cut]).bodies == []
  {
    var line, raw := text + [13], (text + LineBreak + LineBreak)[..cut];
    if cut <= |line| {
      assert raw == line[..cut];
      OneLineIsNoHeader(raw);
    } else {
      var rest: seq<byte> := if cut == |line| + 1 then [] else [13];
      assert raw == Line(line) + rest;
      ScanAnnounced(text, length, rest);
      OneCarriageReturn(length);
    }
  }

  lemma OneCarriageReturn(length: int)
    ensures ScanHeader([13], length) == Checked(length, [])
  {
    LineLengthOf([13], []);
    assert [13] + [] == [13] && [13][..1] == [13];
    StripPush([], 13);
    assert [] + [13] == [13];
  }

  lemma CutInFrame(body: seq<byte>, cut: nat)
    requires cut < |Frame(body)|
    ensures ReadAll(Frame(body)[..cut]).bodies == []
  {
    var text := HeaderText(|body|);
    var header := text + LineBreak + LineBreak;
    HeaderAnnounces(|body|);
    if cut < |header| {
      CutInHeader(text, |body|, cut);
      assert Frame(body)[..cut] == header[..cut];
    } else {
      ScanFrameHeader(text, |body|, body[..cut - |header|]);
      assert Frame(body)[..cut] == header + body[..cut - |header|];
    }
  }

  /** Of a stream cut at `cut`, exactly the first `n` bodies are delivered, and their frames fit. */
  predicate Delivers(bodies: seq<seq<byte>>, cut: nat, n: nat)
    requires cut <= |Stream(bodies)|
  {
    && n <= |bodies| && ReadAll(Stream(bodies)[..cut]).bodies == bodies[..n]
    && |Stream(bodies[..n])| <= cut && (n < |bodies| ==> cut < |Stream(bodies[..n + 1])|)
  }

  lemma StreamTake(bodies: seq<seq<byte>>, m: nat)
    requires bodies != [] && m < |bodies|
    ensures Stream(bodies[..m + 1]) == Frame(bodies[0]) + Stream(bodies[1..][..m])
  {
    assert bodies[..m + 1][1..] == bodies[1..][..m];
  }

  lemma EmptyStream(bodies: seq<seq<byte>>, cut: nat)
    requires bodies == [] && cut <= |Stream(bodies)|
    ensures Delivers(bodies, cut, 0)
  {
    assert Stream(bodies)[..cut] == [];
  }

  lemma {:induction false} NoWholeFrame(bodies: seq<seq<byte>>, cut: nat)
    requires bodies != [] && cut < |Frame(bodies[0])|
    ensures cut <= |Stream(bodies)| && Delivers(bodies, cut, 0)
  {
    CutInFrame(bodies[0], cut);
    StreamTake(bodies, 0);
    assert Stream(bodies)[..cut] == Frame(bodies[0])[..cut];
    assert bodies[..0] == [];
  }

  lemma {:induction false} OneMoreBody(bodies: seq<seq<byte>>, cut: nat, behind: seq<byte>)
    requires bodies != [] && 1 <= |bodies[0]| <= MaxMessageBytes
    requires |Frame(bodies[0])| <= cut && cut - |Frame(bodies[0])| <= |Stream(bodies[1..])|
    requires behind == Stream(bodies[1..])[..cut - |Frame(bodies[0])|]
    ensures cut <= |Stream(bodies)|
    ensures ReadAll(Stream(bodies)[..cut]).bodies == [bodies[0]] + ReadAll(behind).bodies
  {
    assert Stream(bodies)[..cut] == Frame(bodies[0]) + behind;
    ReadFrame(bodies[0], behind);
  }

  lemma {:induction false} OneMoreFrame(bodies: seq<seq<byte>>, cut: nat, m: nat)
    requires bodies != [] && 1 <= |bodies[0]| <= MaxMessageBytes
    requires var size := |Frame(bodies[0])|;
             size <= cut && cut - size <= |Stream(bodies[1..])| && Delivers(bodies[1..], cut - size, m)
    ensures cut <= |Stream(bodies)| && Delivers(bodies, cut, m + 1)
  {
    OneMoreBody(bodies, cut, Stream(bodies[1..])[..cut - |Frame(bodies[0])|]);
    assert bodies[..m + 1] == [bodies[0]] + bodies[1..][..m];
    StreamTake(bodies, m);
    if m + 1 < |bodies| {
      StreamTake(bodies, m + 1);
    }
  }

  /** A stream that ends anywhere delivers exactly the bodies whose frames arrived whole. */
  lemma {:induction false} CutStreamDeliversWholeFrames(bodies: seq<seq<byte>>, cut: nat) returns (n: nat)
    requires Sendable(bodies) && cut <= |Stream(bodies)|
    ensures Delivers(bodies, cut, n)
  {
    if bodies == [] {
      n := 0;
      EmptyStream(bodies, cut);
    } else if cut < |Frame(bodies[0])| {
      n := 0;
      NoWholeFrame(bodies, cut);
    } else {
      SendableFirst(bodies);
      var m := CutStreamDeliversWholeFrames(bodies[1..], cut - |Frame(bodies[0])|);
      n := m + 1;
      OneMoreFrame(bodies, cut, m);
    }
  }
}
