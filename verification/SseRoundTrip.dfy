/** Printing frames as an event stream and reading them back. */
module SseRoundTrip {
  import opened Text
  import opened Contract
  import opened Sse

  /** A block of the stream: an event with its data lines, or a comment-only heartbeat. */
  datatype Block = Event(name: Option<string>, data: seq<string>) | Heartbeat(comment: string)

  datatype Terminator = Lf | Crlf {
    function Eol(): string {
      if Lf? then "\n" else "\r\n"
    }
  }

  /** A text that stays on one line. */
  predicate OneLine(s: string) {
    '\n' !in s && (s != "" ==> s[|s| - 1] != '\r')
  }

  predicate Clean(s: string) {
    '\n' !in s && Trimmed(s)
  }

  /** What the format can carry: trimmed single-line values, and not an event with nothing in it. */
  predicate Printable(block: Block) {
    match block
    case Event(name, data) =>
      && (name.Some? ==> Clean(name.value))
      && data != [] && (forall i :: 0 <= i < |data| ==> Clean(data[i]))
      && (name.None? ==> Join(data, "\n") != "")
    case Heartbeat(comment) => OneLine(comment)
  }

  function FieldLine(name: string, value: string): string {
    name + (" " + value)
  }

  function DataLines(data: seq<string>): seq<string> {
    if data == [] then [] else [FieldLine("data:", data[0])] + DataLines(data[1..])
  }

  function NameLines(name: Option<string>): seq<string> {
    if name.Some? then [FieldLine("event:", name.value)] else []
  }

  function BlockLines(block: Block): seq<string> {
    match block
    case Event(name, data) => NameLines(name) + DataLines(data)
    case Heartbeat(comment) => [FieldLine(":", comment)]
  }

  function PrintBlock(block: Block, t: Terminator): string {
    Join(BlockLines(block), t.Eol()) + (t.Eol() + t.Eol())
  }

  function Print(blocks: seq<Block>, t: Terminator): string {
    if blocks == [] then "" else PrintBlock(blocks[0], t) + Print(blocks[1..], t)
  }

  function EventOf(block: Block): seq<Item> {
    if block.Event? then [Ok(Frame(block.name, Join(block.data, "\n")))] else []
  }

  /** The frames a reader must see: the events, in order, and no heartbeat. */
  function Events(blocks: seq<Block>): seq<Item> {
    if blocks == [] then [] else EventOf(blocks[0]) + Events(blocks[1..])
  }

  // ------------------------------------------------------------------ lines of a raw frame

  /** The lines a block or a leftover terminator can consist of; the last one is not empty. */
  predicate Joinable(ls: seq<string>) {
    && ls != [] && ls[|ls| - 1] != ""
    && (forall i :: 0 <= i < |ls| ==> OneLine(ls[i]))
  }

  lemma {:induction false} LinesOfJoin(ls: seq<string>)
    requires ls != [] && forall i :: 0 <= i < |ls| ==> '\n' !in ls[i]
    ensures Lines(Join(ls, "\n")) == ls
  {
    if |ls| > 1 {
      LinesOfJoin(ls[1..]);
      LinesOfFirst(ls[0], Join(ls[1..], "\n"));
    }
  }

  /** The lines of a CRLF text as seen by a split at line feeds. */
  function WithCr(ls: seq<string>): (r: seq<string>)
    ensures |r| == |ls|
  {
    if |ls| <= 1 then ls else [ls[0] + "\r"] + WithCr(ls[1..])
  }

  lemma {:induction false} JoinWithCr(ls: seq<string>)
    ensures Join(ls, "\r\n") == Join(WithCr(ls), "\n")
  {
    if |ls| > 1 {
      JoinWithCr(ls[1..]);
      var rest := Join(ls[1..], "\r\n");
      assert WithCr(ls)[1..] == WithCr(ls[1..]);
      assert ls[0] + "\r\n" + rest == (ls[0] + "\r") + "\n" + rest;
    }
  }

  lemma StripCr(s: string)
    ensures StripSuffix(s + "\r", "\r") == s
    ensures OneLine(s) ==> StripSuffix(s, "\r") == s
  {
    assert (s + "\r")[..|s|] == s && (s + "\r")[|s|..] == "\r";
    if s != "" { assert s[|s| - 1..] == [s[|s| - 1]]; }
  }

  lemma {:induction false} WithCrStripped(ls: seq<string>)
    requires forall i :: 0 <= i < |ls| ==> OneLine(ls[i])
    ensures forall i :: 0 <= i < |ls| ==> StripSuffix(WithCr(ls)[i], "\r") == ls[i] && '\n' !in WithCr(ls)[i]
  {
    hide StripSuffix;
    if |ls| == 1 {
      StripCr(ls[0]);
    } else if |ls| > 1 {
      StripCr(ls[0]);
      WithCrStripped(ls[1..]);
      forall i | 1 <= i < |ls|
        ensures StripSuffix(WithCr(ls)[i], "\r") == ls[i] && '\n' !in WithCr(ls)[i]
      {
        assert WithCr(ls)[i] == WithCr(ls[1..])[i - 1];
        assert ls[i] == ls[1..][i - 1];
      }
    }
  }

  lemma {:induction false} JoinEnd(ls: seq<string>, eol: string)
    requires ls != [] && ls[|ls| - 1] != ""
    ensures var s, last := Join(ls, eol), ls[|ls| - 1]; s != "" && s[|s| - 1] == last[|last| - 1]
  {
    if |ls| > 1 {
      JoinEnd(ls[1..], eol);
    }
  }

  lemma NothingToStrip(raw: string, suffix: string)
    requires raw != "" && suffix != "" && raw[|raw| - 1] != suffix[|suffix| - 1]
    ensures StripSuffix(raw, suffix) == raw
  {
    if |suffix| <= |raw| {
      assert raw[|raw| - |suffix|..][|suffix| - 1] == raw[|raw| - 1];
    }
  }

  lemma NoTerminatorToStrip(raw: string)
    requires raw != "" && raw[|raw| - 1] != '\n'
    ensures StripSuffix(StripSuffix(raw, "\r\n"), "\n") == raw
  {
    hide StripSuffix;
    NothingToStrip(raw, "\r\n");
    NothingToStrip(raw, "\n");
  }

  lemma {:induction false} FrameLinesOfJoin(ls: seq<string>, t: Terminator)
    requires Joinable(ls)
    ensures FrameLines(Join(ls, t.Eol())) == ls
  {
    var raw := Join(ls, t.Eol());
    JoinEnd(ls, t.Eol());
    var last := ls[|ls| - 1];
    assert last[|last| - 1] in last;
    NoTerminatorToStrip(raw);
    hide StripSuffix, Join;
    if t.Lf? {
      LinesOfJoin(ls);
      forall i | 0 <= i < |ls| ensures StripSuffix(ls[i], "\r") == ls[i] { StripCr(ls[i]); }
    } else {
      JoinWithCr(ls);
      WithCrStripped(ls);
      LinesOfJoin(WithCr(ls));
    }
  }

  // ------------------------------------------------------------------ fields of a block

  lemma FieldLineValue(name: string, value: string)
    requires Clean(value)
    ensures IsField(FieldLine(name, value), name) && FieldValue(FieldLine(name, value), name) == value
  {
    assert FieldLine(name, value)[|name|..] == " " + value;
    TrimTrimmed(value);
  }

  lemma FieldLineOneLine(name: string, value: string)
    requires '\n' !in name && name != "" && (Clean(value) || OneLine(value))
    ensures OneLine(FieldLine(name, value)) && FieldLine(name, value) != ""
  {
    var line := FieldLine(name, value);
    assert line[|line| - 1] == (" " + value)[|value|];
  }

  lemma Snoc(lines: seq<string>, line: string)
    ensures DataValues(lines + [line]) == DataValues(lines) + DataValue(line)
    ensures EventName(lines + [line])
         == if IsField(line, "event:") then Some(FieldValue(line, "event:")) else EventName(lines)
  {
    var all := lines + [line];
    assert all[..|lines|] == lines && all[..|lines| + 1] == all;
    FoldLine(all, |lines|);
  }

  lemma DataLine(value: string)
    requires Clean(value)
    ensures DataValue(FieldLine("data:", value)) == [value] && !IsField(FieldLine("data:", value), "event:")
  {
    FieldLineValue("data:", value);
    assert FieldLine("data:", value)[0] == 'd';
  }

  lemma EventLine(value: string)
    requires Clean(value)
    ensures DataValue(FieldLine("event:", value)) == [] && IsField(FieldLine("event:", value), "event:")
    ensures FieldValue(FieldLine("event:", value), "event:") == value
  {
    FieldLineValue("event:", value);
    EventIsNoData(FieldLine("event:", value));
  }

  lemma DataSnoc(lines: seq<string>, value: string)
    requires Clean(value)
    ensures DataValues(lines + [FieldLine("data:", value)]) == DataValues(lines) + [value]
    ensures EventName(lines + [FieldLine("data:", value)]) == EventName(lines)
  {
    DataLine(value);
    Snoc(lines, FieldLine("data:", value));
  }

  lemma {:induction false} FieldsOfData(lines: seq<string>, data: seq<string>)
    requires forall i :: 0 <= i < |data| ==> Clean(data[i])
    ensures DataValues(lines + DataLines(data)) == DataValues(lines) + data
    ensures EventName(lines + DataLines(data)) == EventName(lines)
    decreases |data|
  {
    hide DataValues, EventName, FieldLine, Clean;
    if data == [] {
      assert lines + DataLines(data) == lines;
      assert DataValues(lines) + [] == DataValues(lines);
    } else {
      var line, rest := FieldLine("data:", data[0]), DataLines(data[1..]);
      assert DataLines(data) == [line] + rest;
      hide DataLines;
      DataSnoc(lines, data[0]);
      FieldsOfData(lines + [line], data[1..]);
      AppendAssoc(lines, [line], rest);
      AppendAssoc(DataValues(lines), [data[0]], data[1..]);
      assert [data[0]] + data[1..] == data;
    }
  }

  /** The empty line left over from the blank line before a CRLF frame. */
  function Lead(lead: bool): seq<string> {
    if lead then [""] else []
  }

  lemma FieldsOfLead(lead: bool)
    ensures DataValues(Lead(lead)) == [] && EventName(Lead(lead)) == None
  {
    if lead {
      assert Lead(lead) == [] + [""];
      Snoc([], "");
    }
  }

  lemma FieldsOfHead(lead: bool, name: Option<string>)
    requires name.Some? ==> Clean(name.value)
    ensures DataValues(Lead(lead) + NameLines(name)) == []
    ensures EventName(Lead(lead) + NameLines(name)) == name
  {
    FieldsOfLead(lead);
    if name.Some? {
      EventLine(name.value);
      Snoc(Lead(lead), FieldLine("event:", name.value));
    } else {
      assert Lead(lead) + NameLines(name) == Lead(lead);
    }
  }

  lemma {:induction false} DataLinesOneLine(data: seq<string>)
    requires forall i :: 0 <= i < |data| ==> Clean(data[i])
    ensures |DataLines(data)| == |data|
    ensures forall i :: 0 <= i < |data| ==> OneLine(DataLines(data)[i]) && DataLines(data)[i] != ""
  {
    if data != [] {
      DataLinesOneLine(data[1..]);
      FieldLineOneLine("data:", data[0]);
    }
  }

  /** Every printed line is a non-empty single line. */
  lemma BlockLinesJoinable(block: Block)
    requires Printable(block)
    ensures Joinable(BlockLines(block))
    ensures forall i :: 0 <= i < |BlockLines(block)| ==> BlockLines(block)[i] != ""
  {
    match block
    case Heartbeat(comment) =>
      FieldLineOneLine(":", comment);
    case Event(name, data) =>
      DataLinesOneLine(data);
      if name.Some? { FieldLineOneLine("event:", name.value); }
  }

  lemma LeadJoinable(lead: bool, ls: seq<string>)
    requires Joinable(ls)
    ensures Joinable(Lead(lead) + ls)
  {
  }

  lemma {:induction false} ParseLines(ls: seq<string>, t: Terminator)
    requires Joinable(ls)
    ensures Parse(Join(ls, t.Eol()))
         == if DataValues(ls) != [] then Ok(Frame(EventName(ls), Join(DataValues(ls), "\n")))
            else if HasComment(ls) then Ok(Frame(None, "")) else NO_DATA
  {
    FrameLinesOfJoin(ls, t);
  }

  lemma {:induction false} ParseEventLines(head: seq<string>, name: Option<string>, data: seq<string>, t: Terminator)
    requires DataValues(head) == [] && EventName(head) == name
    requires data != [] && forall i :: 0 <= i < |data| ==> Clean(data[i])
    requires Joinable(head + DataLines(data))
    ensures Parse(Join(head + DataLines(data), t.Eol())) == Ok(Frame(name, Join(data, "\n")))
  {
    FieldsOfData(head, data);
    assert [] + data == data;
    ParseLines(head + DataLines(data), t);
  }

  lemma {:induction false} FieldsOfHeartbeat(lead: bool, comment: string)
    ensures var ls := Lead(lead) + BlockLines(Heartbeat(comment));
            DataValues(ls) == [] && HasComment(ls)
  {
    var line := FieldLine(":", comment);
    assert line[0] == ':' && IsField(line, ":");
    CommentIsNoField(line);
    FieldsOfLead(lead);
    Snoc(Lead(lead), line);
    assert (Lead(lead) + [line])[|Lead(lead)|] == line;
  }

  lemma {:induction false} ParseEvent(lead: bool, name: Option<string>, data: seq<string>, t: Terminator)
    requires Printable(Event(name, data)) && Joinable(Lead(lead) + NameLines(name) + DataLines(data))
    ensures Parse(Join(Lead(lead) + NameLines(name) + DataLines(data), t.Eol())) == Ok(Frame(name, Join(data, "\n")))
  {
    hide Parse, Joinable, DataLines, NameLines, FieldLine;
    FieldsOfHead(lead, name);
    ParseEventLines(Lead(lead) + NameLines(name), name, data, t);
  }

  lemma ParseHeartbeat(lead: bool, comment: string, t: Terminator)
    requires Joinable(Lead(lead) + BlockLines(Heartbeat(comment)))
    ensures Parse(Join(Lead(lead) + BlockLines(Heartbeat(comment)), t.Eol())) == Ok(Frame(None, ""))
  {
    hide FieldLine, Joinable;
    FieldsOfHeartbeat(lead, comment);
    ParseLines(Lead(lead) + BlockLines(Heartbeat(comment)), t);
  }

  /** A raw frame cut from a printed stream parses to the block it came from. */
  lemma ParseBlock(lead: bool, block: Block, t: Terminator)
    requires Printable(block)
    ensures Pass(Parse(Join(Lead(lead) + BlockLines(block), t.Eol()))) == EventOf(block)
  {
    hide Parse, Joinable, DataLines, NameLines, FieldLine, Clean, OneLine;
    BlockLinesJoinable(block);
    LeadJoinable(lead, BlockLines(block));
    match block
    case Event(name, data) =>
      assert Lead(lead) + BlockLines(block) == Lead(lead) + NameLines(name) + DataLines(data);
      ParseEvent(lead, name, data, t);
    case Heartbeat(comment) =>
      ParseHeartbeat(lead, comment, t);
  }

  // ------------------------------------------------------------------ boundaries in a printed stream

  /** A text without blank lines inside or at its ends, for either terminator. */
  ghost predicate Solid(x: string) {
    && x != "" && x[0] != '\n' && !PairAt(x, '\r', '\n', 0)
    && x[|x| - 1] != '\n' && x[|x| - 1] != '\r'
    && (forall j :: !PairAt(x, '\n', '\n', j))
    && (forall j :: !CrlfBreak(x, j))
  }

  lemma LineIsSolid(x: string)
    requires OneLine(x) && x != ""
    ensures Solid(x)
  {
    assert forall j :: 0 <= j < |x| ==> x[j] in x;
  }

  lemma SolidJoinLf(x: string, y: string)
    requires Solid(x) && Solid(y)
    ensures Solid(x + "\n" + y)
  {
    var s := x + "\n" + y;
    var d := |x| + 1;
    assert s[d..] == y && s[..|x|] == x;
    forall j
      ensures !PairAt(s, '\n', '\n', j)
    {
      assert !PairAt(x, '\n', '\n', j) && !PairAt(y, '\n', '\n', j - d);
    }
    forall j
      ensures !CrlfBreak(s, j)
    {
      assert !CrlfBreak(x, j) && !CrlfBreak(y, j - d);
      assert PairAt(s, '\r', '\n', j) ==> j + 1 < |x| || j >= d;
    }
  }

  lemma SolidJoinCrlf(x: string, y: string)
    requires Solid(x) && Solid(y)
    ensures Solid(x + "\r\n" + y)
  {
    var s := x + "\r\n" + y;
    var d := |x| + 2;
    assert s[d..] == y && s[..|x|] == x;
    forall j
      ensures !PairAt(s, '\n', '\n', j)
    {
      assert !PairAt(x, '\n', '\n', j) && !PairAt(y, '\n', '\n', j - d);
    }
    forall j
      ensures !CrlfBreak(s, j)
    {
      assert !CrlfBreak(x, j) && !CrlfBreak(y, j - d);
      assert PairAt(s, '\r', '\n', j) ==> j + 1 < |x| || j == |x| || j >= d;
    }
  }

  lemma {:induction false} JoinIsSolid(ls: seq<string>, t: Terminator)
    requires ls != [] && forall i :: 0 <= i < |ls| ==> OneLine(ls[i]) && ls[i] != ""
    ensures Solid(Join(ls, t.Eol()))
  {
    LineIsSolid(ls[0]);
    if |ls| > 1 {
      JoinIsSolid(ls[1..], t);
      if t.Lf? {
        SolidJoinLf(ls[0], Join(ls[1..], "\n"));
      } else {
        SolidJoinCrlf(ls[0], Join(ls[1..], "\r\n"));
      }
    }
  }

  lemma LfBoundary(s: string, x: string)
    requires Solid(x) && x <= s && PairAt(s, '\n', '\n', |x|)
    ensures FindBoundary(s) == Some(|x|)
  {
    forall j | 0 <= j < |x|
      ensures !PairAt(s, '\n', '\n', j)
    {
      assert !PairAt(x, '\n', '\n', j);
    }
    FindPairIs(s, '\n', '\n', |x|);
  }

  /** `from` is 2 when a CRLF was left over in front of the frame. */
  lemma CrlfBoundary(s: string, x: string, from: nat)
    requires Solid(x) && from + |x| <= |s| && s[from..from + |x|] == x && CrlfBreak(s, from + |x|)
    requires from == 0 || (from == 2 && PairAt(s, '\r', '\n', 0))
    requires OnlyCrlf(s)
    ensures FindBoundary(s) == Some(from + |x|)
  {
    var t := s[from..];
    assert s[from..from + |x|] == t[..|x|];
    forall j | 0 <= j < from + |x|
      ensures !CrlfBreak(s, j)
    {
      if j >= from {
        assert !CrlfBreak(x, j - from);
        assert s[j] == x[j - from];
        assert j + 1 < from + |x| ==> s[j + 1] == x[j + 1 - from];
        assert j + 2 < from + |x| ==> s[j + 2] == x[j + 2 - from];
        assert j + 3 < from + |x| ==> s[j + 3] == x[j + 3 - from];
      } else {
        assert !PairAt(x, '\r', '\n', 0);
        assert s[from] == x[0] && (|x| > 1 ==> s[from + 1] == x[1]);
      }
    }
    assert FindPair(s, '\n', '\n').None?;
    assert FindCrlfBreak(s) == Some(from + |x|);
  }

  lemma AppendOneTerminator(a: string, b: string)
    ensures OnlyLf(a) && OnlyLf(b) ==> OnlyLf(a + b)
    ensures OnlyCrlf(a) && OnlyCrlf(b) ==> OnlyCrlf(a + b)
  {
  }

  ghost predicate Uses(s: string, t: Terminator) {
    if t.Lf? then OnlyLf(s) else OnlyCrlf(s)
  }

  /** A line of a Solid text: its carriage returns are inside, and it has no line feed. */
  lemma LineTerminators(line: string, t: Terminator)
    requires OneLine(line)
    ensures Uses(line + t.Eol(), t) && (t.Crlf? ==> OnlyCrlf(line))
  {
    assert forall j :: 0 <= j < |line| ==> line[j] in line;
  }

  lemma {:induction false} JoinUses(ls: seq<string>, t: Terminator)
    requires Joinable(ls)
    ensures Uses(Join(ls, t.Eol()) + (t.Eol() + t.Eol()), t)
    ensures t.Crlf? ==> OnlyCrlf(Join(ls, t.Eol()))
  {
    var eol := t.Eol();
    LineTerminators(ls[0], t);
    if |ls| == 1 {
      assert Join(ls, eol) + (eol + eol) == (ls[0] + eol) + eol;
      AppendOneTerminator(ls[0] + eol, eol);
    } else {
      JoinUses(ls[1..], t);
      var rest := Join(ls[1..], eol);
      assert Join(ls, eol) + (eol + eol) == (ls[0] + eol) + (rest + (eol + eol));
      AppendOneTerminator(ls[0] + eol, rest + (eol + eol));
      AppendOneTerminator(ls[0] + eol, rest);
    }
  }

  predicate AllPrintable(blocks: seq<Block>) {
    forall i :: 0 <= i < |blocks| ==> Printable(blocks[i])
  }

  lemma {:induction false} PrintUses(blocks: seq<Block>, t: Terminator)
    requires AllPrintable(blocks)
    ensures Uses(Print(blocks, t), t)
  {
    if blocks != [] {
      PrintUses(blocks[1..], t);
      BlockLinesJoinable(blocks[0]);
      JoinUses(BlockLines(blocks[0]), t);
      AppendOneTerminator(PrintBlock(blocks[0], t), Print(blocks[1..], t));
    }
  }

  // ------------------------------------------------------------------ the round trip

  /** The text left in the buffer by the previous frame: nothing, or one CRLF. */
  function Leftover(lead: bool): string {
    if lead then "\r\n" else ""
  }

  lemma FirstLfFrame(x: string, more: string)
    requires Solid(x)
    ensures Segments(x + ("\n" + "\n") + more) == [x] + Segments(more)
  {
    var s := x + ("\n" + "\n") + more;
    LfBoundary(s, x);
    assert s[..|x|] == x && s[|x| + 2..] == more;
  }

  lemma FirstCrlfFrame(lead: bool, x: string, more: string)
    requires Solid(x) && OnlyCrlf(x) && OnlyCrlf(more)
    ensures Segments(Leftover(lead) + (x + ("\r\n" + "\r\n") + more)) == [Leftover(lead) + x] + Segments("\r\n" + more)
  {
    hide Segments, OnlyCrlf, Solid;
    var s := Leftover(lead) + (x + ("\r\n" + "\r\n") + more);
    var from := |Leftover(lead)|;
    CrlfStream(lead, x, more);
    CrlfBoundary(s, x, from);
    SegmentCut(s, from + |x|);
    CrlfPieces(lead, x, more);
  }

  lemma SegmentCut(s: string, k: nat)
    requires FindBoundary(s) == Some(k)
    ensures k + 2 <= |s| && Segments(s) == [s[..k]] + Segments(s[k + 2..])
  {
    hide FindBoundary;
  }

  lemma CrlfPieces(lead: bool, x: string, more: string)
    ensures var s, k := Leftover(lead) + (x + ("\r\n" + "\r\n") + more), |Leftover(lead)| + |x|;
            s[..k] == Leftover(lead) + x && s[k + 2..] == "\r\n" + more
  {
    hide Leftover;
    var s := Leftover(lead) + (x + ("\r\n" + "\r\n") + more);
    assert s == (Leftover(lead) + x) + ("\r\n" + ("\r\n" + more));
  }

  lemma CrlfStream(lead: bool, x: string, more: string)
    requires OnlyCrlf(x) && OnlyCrlf(more)
    ensures var s, from := Leftover(lead) + (x + ("\r\n" + "\r\n") + more), |Leftover(lead)|;
            OnlyCrlf(s) && s[from..from + |x|] == x && CrlfBreak(s, from + |x|)
  {
    var gap := "\r\n" + "\r\n";
    assert OnlyCrlf(gap);
    AppendOneTerminator(x, gap);
    AppendOneTerminator(x + gap, more);
    AppendOneTerminator(Leftover(lead), x + gap + more);
  }

  lemma JoinWithLead(lead: bool, ls: seq<string>)
    requires ls != []
    ensures Join(Lead(lead) + ls, "\r\n") == Leftover(lead) + Join(ls, "\r\n")
  {
    if lead {
      assert (Lead(lead) + ls)[1..] == ls;
      assert "" + "\r\n" + Join(ls, "\r\n") == "\r\n" + Join(ls, "\r\n");
    } else {
      assert Lead(lead) + ls == ls;
      assert "" + Join(ls, "\r\n") == Join(ls, "\r\n");
    }
  }

  lemma FirstFrame(lead: bool, block: Block, t: Terminator, more: string)
    requires Printable(block) && (lead ==> t.Crlf?) && Uses(more, t)
    ensures Segments(Leftover(lead) + (PrintBlock(block, t) + more))
         == [Join(Lead(lead) + BlockLines(block), t.Eol())] + Segments(Leftover(t.Crlf?) + more)
  {
    var ls := BlockLines(block);
    BlockLinesJoinable(block);
    JoinIsSolid(ls, t);
    JoinUses(ls, t);
    var x := Join(ls, t.Eol());
    if t.Lf? {
      FirstLfFrame(x, more);
      assert "" + (PrintBlock(block, t) + more) == x + ("\n" + "\n") + more;
      assert "" + more == more && [] + ls == ls;
    } else {
      FirstCrlfFrame(lead, x, more);
      JoinWithLead(lead, ls);
    }
  }

  lemma {:induction false} FramesOfPrint(lead: bool, blocks: seq<Block>, t: Terminator)
    requires AllPrintable(blocks) && (lead ==> t.Crlf?)
    ensures Frames(Segments(Leftover(lead) + Print(blocks, t))) == Events(blocks)
    decreases |blocks|
  {
    if blocks == [] {
      assert Leftover(lead) + Print(blocks, t) == Leftover(lead);
      assert FindBoundary(Leftover(lead)).None?;
    } else {
      var block, rest := blocks[0], blocks[1..];
      PrintUses(rest, t);
      FirstFrame(lead, block, t, Print(rest, t));
      FramesCons(Join(Lead(lead) + BlockLines(block), t.Eol()), Segments(Leftover(t.Crlf?) + Print(rest, t)));
      FramesOfPrint(t.Crlf?, rest, t);
      ParseBlock(lead, block, t);
    }
  }

  /** Printed events come back exactly, in order and without the heartbeats, under any chunking. */
  lemma {:induction false} RoundTrip(blocks: seq<Block>, t: Terminator, body: seq<BodyItem>)
    requires AllPrintable(blocks)
    requires Bytes(body) == Print(blocks, t)
    ensures WithoutReadFailures(Deliver(Extract(body, ""))) == Events(blocks)
  {
    PrintUses(blocks, t);
    OneTerminatorIsOrderly(Bytes(body));
    ChunkingIsIrrelevant(body);
    FramesOfPrint(false, blocks, t);
    assert Leftover(false) + Print(blocks, t) == Bytes(body);
  }

  // ------------------------------------------------------------------ a stream that mixes terminators

  const MIXED := "data: a\r\n\r\ndata: b\n\n"

  /** The same characters, divided behind the CRLF blank line. */
  const DIVIDED: seq<BodyItem> := [Chunk(HEAD), Chunk(TAIL)]

  lemma MixedIsDisorderly()
    ensures !Orderly(MIXED) && Bytes(DIVIDED) == MIXED && Bytes([Chunk(MIXED)]) == MIXED
  {
    assert CrlfBreak(MIXED, 7) && PairAt(MIXED, '\n', '\n', 18);
    var rest: seq<BodyItem> := [Chunk(TAIL)];
    assert DIVIDED[1..] == rest && rest[1..] == [];
    assert Bytes(rest) == TAIL + "";
    var whole: seq<BodyItem> := [Chunk(MIXED)];
    assert whole[1..] == [];
    assert Bytes(whole) == MIXED + "";
  }

  lemma {:induction false} BoundaryAtEnd(x: string)
    requires forall j :: 0 <= j < |x| ==> !PairAt(x + "\n\n", '\n', '\n', j)
    ensures FindBoundary(x + "\n\n") == Some(|x|)
    ensures Extract([], x + "\n\n") == [Raw(x)]
  {
    var s := x + "\n\n";
    assert PairAt(s, '\n', '\n', |x|);
    FindPairIs(s, '\n', '\n', |x|);
    assert s[..|x|] == x && s[|x| + 2..] == "";
    NothingInShort("");
  }

  lemma NothingInShort(s: string)
    requires |s| <= 1 || s == "\r\n"
    ensures FindBoundary(s) == None && Extract([], s) == []
  {
  }

  const HEAD := "data: a\r\n\r\n"
  const TAIL := "data: b\n\n"

  lemma BoundaryOfHead()
    ensures FindBoundary(HEAD) == Some(7) && HEAD[..7] == "data: a" && HEAD[9..] == "\r\n"
  {
    assert CrlfBreak(HEAD, 7) && forall j :: 0 <= j < 7 ==> !CrlfBreak(HEAD, j);
    assert forall j :: 0 <= j ==> !PairAt(HEAD, '\n', '\n', j);
    FindPairNone(HEAD, '\n', '\n');
  }

  lemma ExtractTail()
    ensures Extract([], "\r\n" + TAIL) == [Raw("\r\ndata: b")]
  {
    assert "\r\n" + TAIL == "\r\ndata: b" + "\n\n";
    BoundaryAtEnd("\r\ndata: b");
  }

  lemma ExtractStep(body: seq<BodyItem>, buf: string)
    ensures FindBoundary(buf).Some? ==>
      Extract(body, buf) == [Raw(buf[..FindBoundary(buf).value])] + Extract(body, buf[FindBoundary(buf).value + 2..])
    ensures FindBoundary(buf).None? && body != [] && body[0].Chunk? ==>
      Extract(body, buf) == Extract(body[1..], buf + body[0].text)
  {
    hide FindBoundary;
  }

  lemma ExtractDivided()
    ensures Extract(DIVIDED, "") == [Raw("data: a"), Raw("\r\ndata: b")]
  {
    hide Extract, FindBoundary;
    var rest: seq<BodyItem> := [Chunk(TAIL)];
    assert DIVIDED[1..] == rest && rest[1..] == [] && "" + HEAD == HEAD;
    NothingInShort("");
    NothingInShort("\r\n");
    BoundaryOfHead();
    ExtractStep(DIVIDED, "");
    ExtractStep(rest, HEAD);
    ExtractStep(rest, "\r\n");
    ExtractTail();
  }

  lemma ExtractWhole()
    ensures Extract([Chunk(MIXED)], "") == [Raw("data: a\r\n\r\ndata: b")]
  {
    NothingInShort("");
    var whole: seq<BodyItem> := [Chunk(MIXED)];
    assert whole[1..] == [] && "" + MIXED == MIXED;
    assert MIXED == "data: a\r\n\r\ndata: b" + "\n\n";
    BoundaryAtEnd("data: a\r\n\r\ndata: b");
  }

  /** One stream, two divisions: one frame is delivered, or two. */
  lemma MixedStreamDeliversOtherFrames()
    ensures Bytes(DIVIDED) == Bytes([Chunk(MIXED)])
    ensures Deliver(Extract([Chunk(MIXED)], "")) == [Ok(Frame(None, "a\nb"))]
    ensures Deliver(Extract(DIVIDED, "")) == [Ok(Frame(None, "a")), Ok(Frame(None, "b"))]
  {
    hide Extract, Parse, Deliver;
    MixedIsDisorderly();
    ExtractWhole();
    ExtractDivided();
    ParsePieces();
    DeliverOne("data: a\r\n\r\ndata: b", []);
    DeliverOne("\r\ndata: b", []);
    DeliverOne("data: a", [Raw("\r\ndata: b")]);
    DeliverNothing();
    assert [Raw("data: a")] + [Raw("\r\ndata: b")] == [Raw("data: a"), Raw("\r\ndata: b")];
  }

  lemma DeliverNothing()
    ensures Deliver([]) == []
  {
  }

  lemma DeliverOne(text: string, rest: seq<RawItem>)
    ensures Deliver([Raw(text)] + rest) == Pass(Parse(text)) + Deliver(rest)
    ensures Deliver([Raw(text)]) == Pass(Parse(text)) + Deliver([])
  {
    hide Parse;
    assert ([Raw(text)] + rest)[1..] == rest;
    assert [Raw(text)][1..] == [];
  }

  lemma {:induction false} FieldsOfPieces()
    ensures DataValues(["data: a"]) == ["a"] && EventName(["data: a"]) == None
    ensures DataValues(["", "data: b"]) == ["b"] && EventName(["", "data: b"]) == None
    ensures DataValues(["data: a", "", "data: b"]) == ["a", "b"] && EventName(["data: a", "", "data: b"]) == None
  {
    hide DataValues, EventName, FieldLine;
    assert FieldLine("data:", "a") == "data: a" && FieldLine("data:", "b") == "data: b" by { PieceLines(); }
    CleanPieces();
    FieldsOfLead(false);
    FieldsOfLead(true);
    DataSnoc([], "a");
    DataSnoc([""], "b");
    BlankSnoc(["data: a"]);
    DataSnoc(["data: a", ""], "b");
    assert [] + ["data: a"] == ["data: a"] && [""] + ["data: b"] == ["", "data: b"];
    assert ["data: a"] + [""] == ["data: a", ""] && ["data: a", ""] + ["data: b"] == ["data: a", "", "data: b"];
    assert Lead(false) == [] && Lead(true) == [""];
    assert [] + ["a"] == ["a"] && [] + ["b"] == ["b"] && ["a"] + ["b"] == ["a", "b"];
  }

  lemma PieceLines()
    ensures FieldLine("data:", "a") == "data: a" && FieldLine("data:", "b") == "data: b"
  {
  }

  lemma CleanPieces()
    ensures Clean("a") && Clean("b")
  {
  }

  lemma BlankSnoc(lines: seq<string>)
    ensures DataValues(lines + [""]) == DataValues(lines) && EventName(lines + [""]) == EventName(lines)
  {
    Snoc(lines, "");
    assert DataValue("") == [];
    assert DataValues(lines) + [] == DataValues(lines);
  }

  lemma JoinedPieces()
    ensures Join(["data: a"], "\r\n") == "data: a" && Join(["", "data: b"], "\r\n") == "\r\ndata: b"
    ensures Join(["data: a", "", "data: b"], "\r\n") == "data: a\r\n\r\ndata: b"
    ensures Join(["a"], "\n") == "a" && Join(["b"], "\n") == "b" && Join(["a", "b"], "\n") == "a\nb"
  {
    assert ["data: a", "", "data: b"][1..] == ["", "data: b"] && ["", "data: b"][1..] == ["data: b"];
    assert ["a", "b"][1..] == ["b"];
  }

  lemma {:induction false} ParsePieces()
    ensures Parse("data: a") == Ok(Frame(None, "a")) && Parse("\r\ndata: b") == Ok(Frame(None, "b"))
    ensures Parse("data: a\r\n\r\ndata: b") == Ok(Frame(None, "a\nb"))
  {
    hide Parse, DataValues, EventName, Join, HasComment;
    FieldsOfPieces();
    JoinedPieces();
    ParseLines(["data: a"], Crlf);
    ParseLines(["", "data: b"], Crlf);
    ParseLines(["data: a", "", "data: b"], Crlf);
  }
}
