/** What a block of lines delivers, whoever wrote it: lines of data, comments, and fields of other names. */
module EventBlocks {
  import opened EventStream
  import EventFraming

  /** A line of a block: data, with or without the blank after the colon, or anything else. */
  datatype Line = DataLine(text: string, blank: bool) | OtherLine(text: string)

  function LineText(line: Line): string {
    match line
    case DataLine(text, blank) => "data:" + (if blank then " " else "") + text
    case OtherLine(text) => text
  }

  /** A data line without the blank must not seem to have one. */
  predicate WellSent(line: Line) {
    && '\n' !in line.text
    && match line
       case DataLine(text, blank) => blank || text == "" || text[0] != ' '
       case OtherLine(text) => |text| < 5 || text[..5] != "data:"
  }

  function BlockText(lines: seq<Line>): string {
    if lines == [] then ""
    else if |lines| == 1 then LineText(lines[0])
    else LineText(lines[0]) + "\n" + BlockText(lines[1..])
  }

  /** What the lines are to deliver behind `data`: the texts of the data lines, a newline before all but the first. */
  function Delivery(data: string, lines: seq<Line>): string
    decreases |lines|
  {
    if lines == [] then data
    else
      Delivery(After(data, lines[0]), lines[1..])
  }

  function After(data: string, line: Line): string {
    match line
    case DataLine(text, _) => if data == "" then text else data + "\n" + text
    case OtherLine(_) => data
  }

  lemma LineParts(line: Line)
    requires WellSent(line)
    ensures '\n' !in LineText(line)
    ensures IsData(LineText(line)) <==> line.DataLine?
    ensures line.DataLine? ==> Value(LineText(line)) == line.text
  {
    var text := LineText(line);
    if line.DataLine? {
      assert text[..5] == "data:";
      if line.blank {
        assert text[6..] == line.text;
      } else {
        assert text[5..] == line.text;
      }
    }
  }

  lemma FirstOfLines(line: string, rest: string)
    requires '\n' !in line
    ensures Lines(line + "\n" + rest) == [line] + Lines(rest)
    ensures Lines(line) == if line == "" then [] else [line]
  {
    EventFraming.LinesSplit(line, rest);
    assert line + "\n" + rest == line + ("\n" + rest);
    if line != "" {
      EventFraming.OneLine(line);
    }
  }

  lemma JoinFirst(data: string, line: Line, rest: seq<string>)
    requires WellSent(line)
    ensures Join(data, [LineText(line)] + rest)
         == Join(After(data, line), rest)
  {
    LineParts(line);
    assert ([LineText(line)] + rest)[1..] == rest;
    assert "" + line.text == line.text;
  }

  lemma OneLine(data: string, line: Line)
    requires WellSent(line)
    ensures Join(data, Lines(LineText(line))) == After(data, line)
  {
    LineParts(line);
    FirstOfLines(LineText(line), "");
    JoinFirst(data, line, []);
    assert [LineText(line)] + [] == [LineText(line)];
  }

  lemma NextLine(data: string, line: Line, rest: string)
    requires WellSent(line)
    ensures Join(data, Lines(LineText(line) + "\n" + rest)) == Join(After(data, line), Lines(rest))
  {
    LineParts(line);
    FirstOfLines(LineText(line), rest);
    JoinFirst(data, line, Lines(rest));
  }

  /** The data of a block is what its data lines say, with or without blanks; other lines do not matter. */
  lemma {:induction false} BlocksDeliver(data: string, lines: seq<Line>)
    requires forall i | 0 <= i < |lines| :: WellSent(lines[i])
    ensures Join(data, Lines(BlockText(lines))) == Delivery(data, lines)
    decreases |lines|
  {
    if |lines| == 1 {
      OneLine(data, lines[0]);
      assert Delivery(After(data, lines[0]), lines[1..]) == After(data, lines[0]);
    } else if lines != [] {
      NextLine(data, lines[0], BlockText(lines[1..]));
      BlocksDeliver(After(data, lines[0]), lines[1..]);
    }
  }

  /** So the same data lines deliver the same, whatever the other lines and the blanks. */
  lemma BlockDataExactly(lines: seq<Line>)
    requires forall i | 0 <= i < |lines| :: WellSent(lines[i])
    ensures EventTexts(BlockText(lines))
         == if Delivery("", lines) == "" || Delivery("", lines) == "[DONE]" then [] else [Delivery("", lines)]
  {
    BlocksDeliver("", lines);
  }
}
