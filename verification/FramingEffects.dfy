/**
 What is on the wire: the text of a frame, and what every line of a header means to its reader, stated
 on the bytes.
 */
module FramingEffects {
  import opened Bytes
  import opened Outcomes
  import opened Framing

  // ----- The frame that is written -----

  predicate IsAscii(bytes: seq<byte>, text: string) {
    |bytes| == |text| && forall i :: 0 <= i < |text| ==> bytes[i] as int == text[i] as int
  }

  predicate Digits(bytes: seq<byte>) {
    bytes != [] && forall i :: 0 <= i < |bytes| ==> 48 <= bytes[i] <= 57
  }

  /** What decimal digits are worth. */
  function Value(digits: seq<byte>): nat
    requires digits == [] || Digits(digits)
  {
    if digits == [] then 0 else 10 * Value(digits[..|digits| - 1]) + (digits[|digits| - 1] - 48)
  }

  lemma {:induction false} DecimalIsWorth(n: nat)
    ensures Digits(Decimal(n)) && Value(Decimal(n)) == n
    ensures Decimal(n)[0] == 48 ==> n == 0
  {
    if n < 10 {
      assert Decimal(n) == [48 + n] && [48 + n][..0] == [];
    } else {
      DecimalIsWorth(n / 10);
      assert Decimal(n) == Decimal(n / 10) + [48 + n % 10];
      assert Decimal(n)[..|Decimal(n)| - 1] == Decimal(n / 10);
    }
  }

  /** The header name, the length in decimal without leading zeros, an empty line, the body. */
  lemma {:induction false} FrameIs(body: seq<byte>) returns (name: seq<byte>, digits: seq<byte>)
    ensures Frame(body) == name + digits + [13, 10, 13, 10] + body
    ensures IsAscii(name, "Content-Length: ")
    ensures Digits(digits) && Value(digits) == |body|
    ensures digits[0] == 48 ==> body == []
  {
    name, digits := Ascii(HeaderStart), Decimal(|body|);
    DecimalIsWorth(|body|);
    AsciiIs();
    Joins(name + digits, body);
  }

  lemma AsciiIs()
    ensures IsAscii(Ascii(HeaderStart), "Content-Length: ")
  {
  }

  lemma Joins(header: seq<byte>, body: seq<byte>)
    ensures header + LineBreak + LineBreak + body == header + [13, 10, 13, 10] + body
  {
  }

  // ----- The lines of a header -----

  predicate Spaces(bytes: seq<byte>) {
    forall i :: 0 <= i < |bytes| ==> bytes[i] in {9, 11, 12, 13, 32}
  }

  /** A text that is clean at both ends. */
  predicate Clean(text: seq<byte>) {
    text != [] && !IsSpace(text[0]) && !IsSpace(text[|text| - 1]) && NewLine !in text
  }

  /** The header name in any mixture of cases. */
  predicate IsName(text: seq<byte>) {
    var name := "content-length:";
    && |text| == |name|
    && forall i :: 0 <= i < |name| ==>
                     text[i] as int == name[i] as int
                     || (97 <= name[i] as int <= 122 && text[i] as int == name[i] as int - 32)
  }

  lemma {:induction false} StripLeftOf(lead: seq<byte>, rest: seq<byte>)
    requires Spaces(lead) && (rest != [] ==> !IsSpace(rest[0]))
    ensures StripLeft(lead + rest) == rest
  {
    if lead == [] {
      assert lead + rest == rest;
    } else {
      assert (lead + rest)[1..] == lead[1..] + rest;
      StripLeftOf(lead[1..], rest);
    }
  }

  lemma {:induction false} StripRightOf(text: seq<byte>, trail: seq<byte>)
    requires Spaces(trail) && (text != [] ==> !IsSpace(text[|text| - 1]))
    ensures StripRight(text + trail) == text
  {
    if trail == [] {
      assert text + trail == text;
    } else {
      var front := trail[..|trail| - 1];
      assert (text + trail)[..|text + trail| - 1] == text + front;
      StripRightOf(text, front);
    }
  }

  lemma StripOf(lead: seq<byte>, text: seq<byte>, trail: seq<byte>)
    requires Spaces(lead) && Spaces(trail) && Clean(text)
    ensures Strip(lead + text + trail) == text
  {
    StripLeftOf(lead, text + trail);
    assert lead + text + trail == lead + (text + trail);
    StripRightOf(text, trail);
  }

  lemma NameIs(text: seq<byte>)
    ensures NamesLength(text) <==> |text| >= 15 && IsName(text[..15])
  {
    var name := "content-length:";
    if |text| >= 15 {
      assert |Lower(text[..15])| == 15;
      assert forall i :: 0 <= i < 15 ==> Ascii(Name)[i] as int == name[i] as int;
      if IsName(text[..15]) {
        assert Lower(text[..15]) == Ascii(Name);
      }
      if NamesLength(text) {
        forall i | 0 <= i < 15
          ensures text[i] as int == name[i] as int
                  || (97 <= name[i] as int <= 122 && text[i] as int == name[i] as int - 32)
        {
          assert Lower(text[..15])[i] == Ascii(Name)[i];
        }
      }
    }
  }

  /** A line that is not about the length is skipped. */
  lemma {:induction false} OtherLineIsSkipped(lead: seq<byte>, text: seq<byte>, trail: seq<byte>, tail: seq<byte>,
                                              length: int)
    requires Spaces(lead) && Spaces(trail) && Clean(text) && !(|text| >= 15 && IsName(text[..15]))
    ensures ScanHeader(lead + text + trail + [10] + tail, length) == ScanHeader(tail, length)
  {
    CompleteLine(lead + text + trail, tail);
    StripOf(lead, text, trail);
    NameIs(text);
  }

  lemma {:induction false} DigitsAreWorth(digits: seq<byte>)
    requires Digits(digits)
    ensures DigitsFrom(0, false, digits) == Some(Value(digits))
  {
    var front, last := digits[..|digits| - 1], digits[|digits| - 1];
    assert digits == front + [last];
    assert forall b :: b in front ==> IsDigit(b);
    DigitsPush(0, false, front, last);
    if front != [] {
      DigitsAreWorth(front);
    }
  }

  lemma ParsedIsWorth(digits: seq<byte>)
    requires Digits(digits)
    ensures ParseInt(digits) == Some(Value(digits))
  {
    DigitsAreWorth(digits);
  }

  /** The header name in any case, blanks or none, and digits: the length, whatever came before. */
  lemma {:induction false} LengthLineCounts(lead: seq<byte>, name: seq<byte>, pad: seq<byte>, digits: seq<byte>,
                                            trail: seq<byte>, tail: seq<byte>, length: int)
    requires Spaces(lead) && Spaces(pad) && Spaces(trail) && IsName(name)
    requires Digits(digits)
    ensures ScanHeader(lead + (name + pad + digits) + trail + [10] + tail, length) == ScanHeader(tail, Value(digits))
  {
    var text := name + pad + digits;
    assert text[..15] == name && text[15..] == pad + digits;
    NamedIsClean(name, pad, digits);
    CompleteLine(lead + text + trail, tail);
    StripOf(lead, text, trail);
    NameIs(text);
    StripOf(pad, digits, []);
    assert pad + digits + [] == pad + digits;
    ParsedIsWorth(digits);
  }

  lemma NamedIsClean(name: seq<byte>, pad: seq<byte>, digits: seq<byte>)
    requires Spaces(pad) && IsName(name) && Digits(digits)
    ensures Clean(name + pad + digits) && Clean(digits)
  {
    assert "content-length:"[0] == 'c';
    assert name[0] == 99 || name[0] == 67;
    forall i | 0 <= i < |name|
      ensures name[i] != NewLine
    {
      assert "content-length:"[i] as int >= 45;
    }
    assert NewLine !in name;
  }

  /** A value with anything in it that no number has ends the connection. */
  lemma {:induction false} WrongDigits(value: nat, after: bool, s: seq<byte>, i: nat)
    requires i < |s| && !(48 <= s[i] <= 57) && s[i] != 95
    ensures DigitsFrom(value, after, s).None?
    decreases |s|
  {
    if i > 0 {
      assert s[1..][i - 1] == s[i];
      if 48 <= s[0] <= 57 {
        WrongDigits(10 * value + (s[0] - 48), true, s[1..], i - 1);
      } else if s[0] == 95 && after {
        WrongDigits(value, false, s[1..], i - 1);
      }
    }
  }

  lemma {:induction false} WrongLengthIsRefused(lead: seq<byte>, name: seq<byte>, pad: seq<byte>, value: seq<byte>,
                                                i: nat, trail: seq<byte>, tail: seq<byte>, length: int)
    requires Spaces(lead) && Spaces(pad) && Spaces(trail) && IsName(name) && Clean(value) && Clean(name + pad + value)
    requires i < |value| && !(48 <= value[i] <= 57) && value[i] != 95 && value[i] != 43 && value[i] != 45
    ensures ScanHeader(lead + (name + pad + value) + trail + [10] + tail, length) == Raised(InvalidLength)
  {
    var text := name + pad + value;
    assert text[..15] == name && text[15..] == pad + value;
    CompleteLine(lead + text + trail, tail);
    StripOf(lead, text, trail);
    NameIs(text);
    StripOf(pad, value, []);
    assert pad + value + [] == pad + value;
    WrongDigits(0, false, value, i);
    if value[0] == 45 || value[0] == 43 {
      assert value[1..][i - 1] == value[i];
      WrongDigits(0, false, value[1..], i - 1);
    }
  }

  /** A blank line ends the header: from 1 byte to 32 MiB may follow. */
  lemma {:induction false} BlankLineEndsHeader(blank: seq<byte>, tail: seq<byte>, length: int)
    requires Spaces(blank)
    ensures ScanHeader(blank + [10] + tail, length)
         == if 1 <= length <= 33_554_432 then Header(length, tail)
            else if length <= 0 then Raised(InvalidLength) else Raised(ExceedsLimit)
  {
    CompleteLine(blank, tail);
    StripLeftOf(blank, []);
    assert blank + [] == blank;
  }
}
