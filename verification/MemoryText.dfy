/** The memory message as the model reads it: a heading, and one line for every item. */
module MemoryText {
  import opened Protocol
  import opened History

  /** The lines of a text, without their line feeds. */
  function Lines(text: string): (lines: seq<string>)
    ensures lines != []
  {
    if text == "" then [""]
    else
      var rest := Lines(text[1..]);
      if text[0] == '\n' then [""] + rest else [[text[0]] + rest[0]] + rest[1..]
  }

  lemma {:induction false} OneLine(line: string)
    requires '\n' !in line
    ensures Lines(line) == [line]
  {
    if line != "" {
      assert line[0] in line && line == [line[0]] + line[1..];
      OneLine(line[1..]);
    }
  }

  lemma {:induction false} LineBehind(text: string, line: string)
    requires '\n' !in line
    ensures Lines(text + "\n" + line) == Lines(text) + [line]
  {
    if text == "" {
      OneLine(line);
      assert text + "\n" + line == "\n" + line && ("\n" + line)[1..] == line;
    } else {
      LineBehind(text[1..], line);
      assert (text + "\n" + line)[1..] == text[1..] + "\n" + line;
    }
  }

  function Bullets(items: seq<string>): seq<string> {
    seq(|items|, i requires 0 <= i < |items| => "- " + items[i])
  }

  lemma BulletHasNoLineFeed(item: string)
    requires '\n' !in item
    ensures '\n' !in "- " + item
  {
  }

  lemma {:induction false} JoinedLines(heading: string, items: seq<string>)
    requires items != [] && '\n' !in heading && forall item :: item in items ==> '\n' !in item
    ensures Lines(heading + "\n" + ("- " + Join(items))) == [heading] + Bullets(items)
  {
    var front, last := items[..|items| - 1], items[|items| - 1];
    BulletHasNoLineFeed(last);
    if front == [] {
      OneLine(heading);
      LineBehind(heading, "- " + last);
    } else {
      JoinedLines(heading, front);
      LineBehind(heading + "\n" + ("- " + Join(front)), "- " + last);
      OneMoreBullet(heading, Join(front), last);
      assert Bullets(items) == Bullets(front) + ["- " + last];
    }
  }

  lemma OneMoreBullet(heading: string, joined: string, last: string)
    ensures heading + "\n" + ("- " + (joined + "\n- " + last)) == heading + "\n" + ("- " + joined) + "\n" + ("- " + last)
  {
  }

  /** A system message that reads back to the items, where each of them is one line. */
  lemma {:induction false} MemoryReadsBack(items: seq<string>)
    requires items != [] && forall item :: item in items ==> '\n' !in item
    ensures var m := MemoryMessage(items);
            && m == Message(System, m.content, "", "", "", [], false, [])
            && Lines(m.content) == ["Cross-session memory:"] + Bullets(items)
  {
    var heading := "Cross-session memory:";
    JoinedLines(heading, items);
    assert MemoryPrefix + "- " + Join(items) == heading + "\n" + ("- " + Join(items));
  }

  /** Whatever the items hold: the first stands behind the heading, every other on a line behind the ones before. */
  lemma {:induction false} MemoryGrowsByLine(items: seq<string>, item: string)
    ensures MemoryMessage([item]).content == "Cross-session memory:\n- " + item
    ensures items != [] ==> MemoryMessage(items + [item]).content == MemoryMessage(items).content + "\n- " + item
  {
    assert (items + [item])[..|items|] == items;
    if items != [] {
      assert MemoryPrefix + "- " + (Join(items) + "\n- " + item) == (MemoryPrefix + "- " + Join(items)) + "\n- " + item;
    }
  }

  /** A message is the memory exactly when it is a system message under that heading; nothing else is dropped. */
  lemma {:induction false} OnlyMemoryIsDropped(messages: seq<Message>, m: Message)
    ensures WithoutMemory(messages + [m])
         == WithoutMemory(messages)
            + (if m.role.System? && "Cross-session memory:\n" <= m.content then [] else [m])
    ensures WithoutMemory([]) == []
  {
    WithoutMemoryPush(messages, m);
  }
}
