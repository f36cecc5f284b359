/**
 The event log as bytes (`store/store.py`, `_append_unlocked` and `_records_unlocked`): one encoded
 record a line, and a reader that heals a torn last line. The record codec is abstract.
 */
module LogFile {
  import opened Bytes
  import opened Outcomes

  /** `MAX_EVENT_BYTES`. */
  const MaxEventBytes: nat := 20 * 1024 * 1024

  datatype Codec<!R> = Codec(encode: R -> seq<byte>, decode: seq<byte> -> Option<R>)

  /**
   What the JSON codec provides: records round trip, their text has no line feed, and neither a
   strict prefix of an object's text nor two texts run together decode.
   */
  ghost predicate Lawful<R(!new)>(c: Codec<R>) {
    && (forall r :: c.decode(c.encode(r)) == Some(r))
    && (forall r :: NewLine !in c.encode(r))
    && (forall r, n :: 0 <= n < |c.encode(r)| ==> c.decode(c.encode(r)[..n]) == None)
    && (forall r, r' :: c.decode(c.encode(r) + c.encode(r')) == None)
  }

  /** The bytes of a fully written log. */
  function Frames<R>(c: Codec<R>, records: seq<R>): seq<byte> {
    if records == [] then [] else Line(c.encode(records[0])) + Frames(c, records[1..])
  }

  lemma {:induction false} FramesConcat<R>(c: Codec<R>, a: seq<R>, b: seq<R>)
    ensures Frames(c, a + b) == Frames(c, a) + Frames(c, b)
  {
    if a == [] {
      assert a + b == b;
    } else {
      FramesConcat(c, a[1..], b);
      assert (a + b)[1..] == a[1..] + b;
      Regroup(Line(c.encode(a[0])), Frames(c, a[1..]), Frames(c, b));
    }
  }

  predicate Blank(bytes: seq<byte>) {
    forall b :: b in bytes ==> IsSpace(b)
  }

  /**
   `Records(rs, kept)`: the records read, and how many bytes of the file stay. `Corrupt` and
   `TooLong` raise; `at` is where the offending line starts.
   */
  datatype Reading<R> = Records(records: seq<R>, kept: nat) | Corrupt(at: nat) | TooLong(at: nat)

  /** A reading that comes after `records`, which took `n` bytes. */
  function Shift<R>(records: seq<R>, n: nat, r: Reading<R>): Reading<R> {
    match r
    case Records(rs, kept) => Records(records + rs, n + kept)
    case Corrupt(at) => Corrupt(n + at)
    case TooLong(at) => TooLong(n + at)
  }

  function Read<R>(c: Codec<R>, raw: seq<byte>): (r: Reading<R>)
    ensures r.Records? ==> r.kept <= |raw|
    decreases |raw|
  {
    if raw == [] then Records([], 0)
    else
      var n := LineLength(raw);
      if n > MaxEventBytes then TooLong(0)
      else match c.decode(raw[..n])
        case None => if Blank(Behind(raw, n)) then Records([], 0) else Corrupt(0)
        case Some(r) => Shift([r], |raw| - |Behind(raw, n)|, Read(c, Behind(raw, n)))
  }

  /** The log of one session; reading may truncate it. */
  class EventLog<!R> {
    const codec: Codec<R>
    var file: seq<byte>

    constructor (codec: Codec<R>)
      ensures this.codec == codec && file == []
    {
      this.codec, file := codec, [];
    }

    method Append(r: R)
      modifies this
      ensures file == old(file) + (codec.encode(r) + [NewLine])
    {
      file := file + (codec.encode(r) + [NewLine]);
    }

    /**
     The reader's loop over the lines. It answers what `Read` says, cuts the file to the bytes that
     stay, and changes nothing when it raises.
     */
    method ReadRecords() returns (reading: Reading<R>)
      modifies this
      ensures reading == Read(codec, old(file))
      ensures file == if reading.Records? then old(file)[..reading.kept] else old(file)
    {
      var raw := file;
      var records, good: nat, rest := [], 0, raw;
      ShiftNone(Read(codec, raw));
      while rest != []
        invariant file == raw && good + |rest| == |raw|
        invariant Shift(records, good, Read(codec, rest)) == Read(codec, raw)
        decreases |rest|
      {
        var n := FindLineFeed(rest);
        var line, behind := rest[..n], Behind(rest, n);
        if n > MaxEventBytes {
          return TooLong(good);
        }
        var decoded := codec.decode(line);
        if decoded.None? {
          if Blank(behind) {
            file := raw[..good];
            return Records(records, good);
          }
          return Corrupt(good);
        }
        ShiftTwice(records, good, [decoded.value], |rest| - |behind|, Read(codec, behind));
        records, good, rest := records + [decoded.value], good + |rest| - |behind|, behind;
      }
      reading := Records(records, good);
    }
  }

  lemma ShiftTwice<R>(a: seq<R>, n: nat, b: seq<R>, m: nat, r: Reading<R>)
    ensures Shift(a, n, Shift(b, m, r)) == Shift(a + b, n + m, r)
  {
    if r.Records? {
      assert a + (b + r.records) == a + b + r.records;
    }
  }

  // ----- One line -----

  lemma {:induction false} GoodLine<R>(c: Codec<R>, text: seq<byte>, tail: seq<byte>, r: R)
    requires NewLine !in text && c.decode(text) == Some(r)
    ensures Read(c, Line(text) + tail)
         == if |text| > MaxEventBytes then TooLong(0) else Shift([r], |Line(text)|, Read(c, tail))
  {
    CompleteLine(text, tail);
  }

  lemma BadLine<R>(c: Codec<R>, text: seq<byte>, tail: seq<byte>)
    requires NewLine !in text && |text| <= MaxEventBytes && c.decode(text) == None
    ensures Read(c, Line(text) + tail) == if Blank(tail) then Records([], 0) else Corrupt(0)
  {
    CompleteLine(text, tail);
  }

  lemma {:induction false} EndLine<R>(c: Codec<R>, text: seq<byte>)
    requires NewLine !in text && 0 < |text| <= MaxEventBytes
    ensures Read(c, text)
         == match c.decode(text) case None => Records([], 0) case Some(r) => Records([r], |text|)
  {
    LineLengthOf(text, []);
    assert text + [] == text && text[..|text|] == text;
  }

  // ----- What reading recovers -----

  /** A line that does not decode is torn if nothing but white space follows, and corruption otherwise. */
  lemma {:induction false} TornExactly<R>(c: Codec<R>, text: seq<byte>, tail: seq<byte>)
    requires NewLine !in text && |text| <= MaxEventBytes && c.decode(text) == None
    ensures Read(c, text + [10] + tail)
         == if forall i :: 0 <= i < |tail| ==> tail[i] in {9, 10, 11, 12, 13, 32} then Records([], 0) else Corrupt(0)
  {
    assert Blank(tail) <==> forall i :: 0 <= i < |tail| ==> tail[i] in {9, 10, 11, 12, 13, 32} by {
      assert forall i :: 0 <= i < |tail| ==> tail[i] in tail;
    }
    BadLine(c, text, tail);
  }

  /** A record of at most 20 MiB is read back, a longer one is refused. */
  lemma {:induction false} OneRecordReads<R(!new)>(c: Codec<R>, r: R)
    requires Lawful(c)
    ensures Read(c, c.encode(r) + [10])
         == if |c.encode(r)| <= 20_971_520 then Records([r], |c.encode(r)| + 1) else TooLong(0)
  {
    GoodLine(c, c.encode(r), [], r);
    assert Line(c.encode(r)) + [] == c.encode(r) + [10];
    assert [r] + [] == [r];
  }

  ghost predicate Fits<R>(c: Codec<R>, records: seq<R>) {
    forall r :: r in records ==> |c.encode(r)| <= MaxEventBytes
  }

  /** The two laws that complete lines need. */
  ghost predicate RoundTrips<R(!new)>(c: Codec<R>) {
    forall r :: c.decode(c.encode(r)) == Some(r) && NewLine !in c.encode(r)
  }

  lemma FitsFirst<R>(c: Codec<R>, records: seq<R>)
    requires records != []
    ensures Fits(c, records) <==> |c.encode(records[0])| <= MaxEventBytes && Fits(c, records[1..])
  {
    assert records[0] in records;
    assert records == [records[0]] + records[1..];
  }

  /** Complete lines are read one by one, whatever is behind them. */
  lemma {:induction false} ReadPastFrames<R(!new)>(c: Codec<R>, records: seq<R>, tail: seq<byte>)
    requires RoundTrips(c) && Fits(c, records)
    ensures Read(c, Frames(c, records) + tail) == Shift(records, |Frames(c, records)|, Read(c, tail))
  {
    if records == [] {
      assert [] + tail == tail;
      ShiftNone(Read(c, tail));
    } else {
      var first, rest := records[0], records[1..];
      FitsFirst(c, records);
      ReadPastFrames(c, rest, tail);
      ReadFirstLine(c, first, Frames(c, rest), tail);
      ShiftTwice([first], |Line(c.encode(first))|, rest, |Frames(c, rest)|, Read(c, tail));
      assert [first] + rest == records;
    }
  }

  lemma ReadFirstLine<R(!new)>(c: Codec<R>, first: R, behind: seq<byte>, tail: seq<byte>)
    requires c.decode(c.encode(first)) == Some(first) && NewLine !in c.encode(first)
    requires |c.encode(first)| <= MaxEventBytes
    ensures Read(c, Line(c.encode(first)) + behind + tail)
         == Shift([first], |Line(c.encode(first))|, Read(c, behind + tail))
  {
    Regroup(Line(c.encode(first)), behind, tail);
    GoodLine(c, c.encode(first), behind + tail, first);
  }

  lemma ShiftNone<R>(r: Reading<R>)
    ensures Shift([], 0, r) == r
  {
    if r.Records? {
      assert [] + r.records == r.records;
    }
  }

  /** A file whose lines are all complete is read back whole and left alone. */
  lemma {:induction false} ReadFrames<R(!new)>(c: Codec<R>, records: seq<R>)
    requires RoundTrips(c) && Fits(c, records)
    ensures Read(c, Frames(c, records)) == Records(records, |Frames(c, records)|)
  {
    ReadPastFrames(c, records, []);
    assert Frames(c, records) + [] == Frames(c, records);
    assert records + [] == records;
  }

  lemma {:induction false} FirstTooLong<R>(c: Codec<R>, records: seq<R>) returns (i: nat)
    requires !Fits(c, records)
    ensures i < |records| && Fits(c, records[..i]) && |c.encode(records[i])| > MaxEventBytes
  {
    FitsFirst(c, records);
    if |c.encode(records[0])| > MaxEventBytes {
      i := 0;
    } else {
      var j := FirstTooLong(c, records[1..]);
      i := j + 1;
      FitsFirst(c, records[..i]);
      assert records[..i][1..] == records[1..][..j];
    }
  }

  lemma {:induction false} LongRecordIsUnreadable<R(!new)>(c: Codec<R>, records: seq<R>, i: nat)
    requires RoundTrips(c) && i < |records| && Fits(c, records[..i]) && |c.encode(records[i])| > MaxEventBytes
    ensures Read(c, Frames(c, records)) == TooLong(|Frames(c, records[..i])|)
  {
    var long, rest := records[i], records[i + 1..];
    assert records == records[..i] + records[i..];
    assert records[i..][0] == long && records[i..][1..] == rest;
    FramesConcat(c, records[..i], records[i..]);
    ReadPastFrames(c, records[..i], Frames(c, records[i..]));
    GoodLine(c, c.encode(long), Frames(c, rest), long);
  }

  /** A log is readable exactly when every record on it fits the line cap, which `append` does not check. */
  lemma {:induction false} ReadableIffFits<R(!new)>(c: Codec<R>, records: seq<R>)
    requires RoundTrips(c)
    ensures Read(c, Frames(c, records)).Records? <==> Fits(c, records)
  {
    if Fits(c, records) {
      ReadFrames(c, records);
    } else {
      var i := FirstTooLong(c, records);
      LongRecordIsUnreadable(c, records, i);
    }
  }

  /** A complete line that does not decode, with anything but white space behind it, is refused. */
  lemma CorruptionIsLoud<R(!new)>(c: Codec<R>, records: seq<R>, bad: seq<byte>, behind: seq<byte>)
    requires RoundTrips(c) && Fits(c, records)
    requires NewLine !in bad && |bad| <= MaxEventBytes && c.decode(bad) == None && !Blank(behind)
    ensures Read(c, Frames(c, records) + (Line(bad) + behind)) == Corrupt(|Frames(c, records)|)
  {
    ReadPastFrames(c, records, Line(bad) + behind);
    BadLine(c, bad, behind);
  }

  lemma {:induction false} UndecodableTailIsCut<R(!new)>(c: Codec<R>, records: seq<R>, text: seq<byte>)
    requires RoundTrips(c) && Fits(c, records)
    requires NewLine !in text && |text| <= MaxEventBytes && (text != [] ==> c.decode(text) == None)
    ensures Read(c, Frames(c, records) + text) == Records(records, |Frames(c, records)|)
  {
    ReadPastFrames(c, records, text);
    assert records + [] == records;
    if text != [] {
      EndLine(c, text);
    }
  }

  lemma FitsParts<R>(c: Codec<R>, a: seq<R>, b: seq<R>)
    requires Fits(c, a + b)
    ensures Fits(c, a) && Fits(c, b)
  {
    forall r | r in a || r in b
      ensures |c.encode(r)| <= MaxEventBytes
    {
      assert r in a + b;
    }
  }

  /** The file that a reading leaves. */
  function Healed<R>(c: Codec<R>, raw: seq<byte>): seq<byte> {
    if Read(c, raw).Records? then raw[..Read(c, raw).kept] else raw
  }

  /**
   Torn-tail recovery: a log whose last append was cut short inside the record's text reads as the
   records before it and is truncated to exactly their bytes, which read the same again.
   */
  lemma {:induction false} TornTailHeals<R(!new)>(c: Codec<R>, records: seq<R>, torn: R, cut: nat)
    requires Lawful(c) && Fits(c, records + [torn]) && cut < |c.encode(torn)|
    ensures var raw := Frames(c, records) + c.encode(torn)[..cut];
            && Read(c, raw) == Records(records, |Frames(c, records)|)
            && Healed(c, raw) == Frames(c, records)
            && Read(c, Healed(c, raw)) == Read(c, raw)
            && Healed(c, Healed(c, raw)) == Healed(c, raw)
  {
    var raw := Frames(c, records) + c.encode(torn)[..cut];
    FitsParts(c, records, [torn]);
    assert torn in [torn];
    UndecodableTailIsCut(c, records, c.encode(torn)[..cut]);
    assert raw[..|Frames(c, records)|] == Frames(c, records);
    ReadFrames(c, records);
  }

  /** Appending to complete lines, then reading, gives the new record behind the others. */
  lemma {:induction false} AppendThenRead<R(!new)>(c: Codec<R>, records: seq<R>, next: R)
    requires RoundTrips(c) && Fits(c, records + [next])
    ensures Frames(c, records) + Line(c.encode(next)) == Frames(c, records + [next])
    ensures Read(c, Frames(c, records) + Line(c.encode(next)))
         == Records(records + [next], |Frames(c, records) + Line(c.encode(next))|)
  {
    FramesConcat(c, records, [next]);
    assert Frames(c, [next]) == Line(c.encode(next)) + [];
    assert Line(c.encode(next)) + [] == Line(c.encode(next));
    ReadFrames(c, records + [next]);
  }

  // ----- The line feed alone lost -----

  /** Healing keeps a last record that lost only its line feed, and the file as it is. */
  lemma LostLineFeed<R(!new)>(c: Codec<R>, records: seq<R>, last: R)
    requires RoundTrips(c) && Fits(c, records + [last]) && c.encode(last) != []
    ensures var raw := Frames(c, records) + c.encode(last);
            Read(c, raw) == Records(records + [last], |raw|) && Healed(c, raw) == raw
  {
    FitsParts(c, records, [last]);
    assert last in [last];
    ReadPastFrames(c, records, c.encode(last));
    EndLine(c, c.encode(last));
  }

  /** The next append then runs into that line, and reading drops both records. */
  lemma GluedLinesAreDropped<R(!new)>(c: Codec<R>, records: seq<R>, last: R, next: R)
    requires RoundTrips(c) && c.decode(c.encode(last) + c.encode(next)) == None
    requires Fits(c, records) && |c.encode(last)| + |c.encode(next)| <= MaxEventBytes
    ensures Read(c, Frames(c, records) + c.encode(last) + Line(c.encode(next)))
         == Records(records, |Frames(c, records)|)
  {
    var line := c.encode(last) + c.encode(next);
    GluedText(Frames(c, records), c.encode(last), c.encode(next));
    ReadPastFrames(c, records, Line(line) + []);
    BadLine(c, line, []);
    assert records + [] == records;
  }

  lemma GluedText(front: seq<byte>, a: seq<byte>, b: seq<byte>)
    ensures front + a + Line(b) == front + (Line(a + b) + [])
  {
  }

  /** What a crash leaves of the last append: the first `kept` bytes of the record's text. */
  function AfterCrash<R>(c: Codec<R>, records: seq<R>, last: R, kept: nat): seq<byte>
    requires kept <= |c.encode(last)|
  {
    Frames(c, records) + c.encode(last)[..kept]
  }

  /** If the two texts together are longer than a line may be, the whole log becomes unreadable. */
  lemma GluedLinesCanBeTooLong<R(!new)>(c: Codec<R>, records: seq<R>, last: R, next: R)
    requires RoundTrips(c) && Fits(c, records) && |c.encode(last)| + |c.encode(next)| > MaxEventBytes
    ensures Read(c, Frames(c, records) + c.encode(last) + Line(c.encode(next))) == TooLong(|Frames(c, records)|)
  {
    var line := c.encode(last) + c.encode(next);
    assert Frames(c, records) + c.encode(last) + Line(c.encode(next)) == Frames(c, records) + (Line(line) + []);
    ReadPastFrames(c, records, Line(line) + []);
    CompleteLine(line, []);
  }

  /**
   Heal, append, read: the answer is what was healed followed by the new record exactly when the
   crash lost more than the line feed. When only the line feed was lost, both records are dropped,
   or, if their texts together pass the line cap, the log cannot be read any more.
   */
  lemma {:induction false} AppendAfterCrashIsReadExactly<R(!new)>(c: Codec<R>, records: seq<R>, last: R, kept: nat,
                                                           next: R)
    requires Lawful(c) && kept <= |c.encode(last)|
    requires Fits(c, records + [last]) && Fits(c, records + [next])
    ensures var crashed := AfterCrash(c, records, last, kept);
            var file := Healed(c, crashed) + Line(c.encode(next));
            && Read(c, crashed).Records?
            && Read(c, crashed).records == (if kept < |c.encode(last)| then records else records + [last])
            && (Read(c, file) == Records(Read(c, crashed).records + [next], |file|) <==> kept < |c.encode(last)|)
            && (kept == |c.encode(last)| ==>
                  Read(c, file) == if |c.encode(last)| + |c.encode(next)| <= MaxEventBytes
                                   then Records(records, |Frames(c, records)|) else TooLong(|Frames(c, records)|))
  {
    FitsParts(c, records, [last]);
    TextIsNotEmpty(c, last);
    if kept < |c.encode(last)| {
      TornTailHeals(c, records, last, kept);
      AppendThenRead(c, records, next);
    } else {
      assert c.encode(last)[..kept] == c.encode(last);
      LostLineFeed(c, records, last);
      if |c.encode(last)| + |c.encode(next)| <= MaxEventBytes {
        GluedLinesAreDropped(c, records, last, next);
      } else {
        GluedLinesCanBeTooLong(c, records, last, next);
      }
    }
  }

  /** An empty text would glue to any other one. */
  lemma TextIsNotEmpty<R(!new)>(c: Codec<R>, r: R)
    requires Lawful(c)
    ensures c.encode(r) != []
  {
    assert c.decode(c.encode(r) + c.encode(r)) == None;
    assert c.encode(r) == [] ==> c.encode(r) + c.encode(r) == c.encode(r);
  }

  // ----- A file that ends anywhere -----

  /** A cut of a written log falls behind some complete lines and inside or behind one more text. */
  lemma {:induction false} CutFalls<R>(c: Codec<R>, records: seq<R>, cut: nat) returns (n: nat, k: nat)
    requires cut < |Frames(c, records)|
    ensures n < |records| && k <= |c.encode(records[n])|
    ensures Frames(c, records)[..cut] == Frames(c, records[..n]) + c.encode(records[n])[..k]
  {
    var line, rest := Line(c.encode(records[0])), Frames(c, records[1..]);
    if cut < |line| {
      n, k := 0, cut;
      assert (line + rest)[..cut] == c.encode(records[0])[..cut];
      assert Frames(c, records[..0]) == [] && [] + c.encode(records[0])[..cut] == c.encode(records[0])[..cut];
    } else {
      var m;
      m, k := CutFalls(c, records[1..], cut - |line|);
      n := m + 1;
      assert (line + rest)[..cut] == line + rest[..cut - |line|];
      assert records[..n][1..] == records[1..][..m];
      Regroup(line, Frames(c, records[1..][..m]), c.encode(records[n])[..k]);
    }
  }

  /** Cut anywhere, a written log reads as some of its records, from the first on, and nothing else. */
  lemma CutReadsPrefix<R(!new)>(c: Codec<R>, records: seq<R>, cut: nat) returns (n: nat)
    requires Lawful(c) && Fits(c, records) && cut <= |Frames(c, records)|
    ensures n <= |records| && Read(c, Frames(c, records)[..cut]).Records?
    ensures Read(c, Frames(c, records)[..cut]).records == records[..n]
  {
    if cut == |Frames(c, records)| {
      ReadFrames(c, records);
      assert Frames(c, records)[..cut] == Frames(c, records) && records[..|records|] == records;
      return |records|;
    }
    var m, k := CutFalls(c, records, cut);
    var text := c.encode(records[m]);
    assert records == records[..m + 1] + records[m + 1..] && records[..m + 1] == records[..m] + [records[m]];
    FitsParts(c, records[..m + 1], records[m + 1..]);
    if k < |text| {
      TornTailHeals(c, records[..m], records[m], k);
      return m;
    }
    assert text[..k] == text;
    TextIsNotEmpty(c, records[m]);
    LostLineFeed(c, records[..m], records[m]);
    return m + 1;
  }

  // ----- The laws can be met -----

  datatype Count = Count(n: nat)

  function Ones(n: nat): seq<byte> {
    seq(n, _ => 1)
  }

  /** A count in unary, closed by a 2: a small codec with every law. */
  function UnaryCodec(): Codec<Count> {
    Codec((r: Count) => Ones(r.n) + [2],
          (bytes: seq<byte>) =>
            if bytes != [] && bytes[|bytes| - 1] == 2 && bytes[..|bytes| - 1] == Ones(|bytes| - 1)
            then Some(Count(|bytes| - 1)) else None)
  }

  lemma {:induction false} UnaryCodecIsLawful()
    ensures Lawful(UnaryCodec())
  {
    forall r: Count {
      UnaryRoundTrips(r);
    }
    forall r: Count, k | 0 <= k < |UnaryCodec().encode(r)| {
      UnaryPrefixFails(r, k);
    }
    forall r: Count, r': Count {
      UnaryGlueFails(r, r');
    }
  }

  lemma UnaryRoundTrips(r: Count)
    ensures UnaryCodec().decode(UnaryCodec().encode(r)) == Some(r) && NewLine !in UnaryCodec().encode(r)
  {
    assert (Ones(r.n) + [2])[..r.n] == Ones(r.n);
  }

  lemma UnaryPrefixFails(r: Count, k: nat)
    requires k < |UnaryCodec().encode(r)|
    ensures UnaryCodec().decode(UnaryCodec().encode(r)[..k]) == None
  {
    var cut := (Ones(r.n) + [2])[..k];
    assert k > 0 ==> cut[k - 1] == 1;
  }

  lemma UnaryGlueFails(r: Count, r': Count)
    ensures UnaryCodec().decode(UnaryCodec().encode(r) + UnaryCodec().encode(r')) == None
  {
    var glued := Ones(r.n) + [2] + (Ones(r'.n) + [2]);
    assert glued[..|glued| - 1][r.n] == 2;
    assert Ones(|glued| - 1)[r.n] == 1;
  }
}
