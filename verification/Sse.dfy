/**
The order-depth event stream (`client/base.py`,
`get_authenticated_order_depth_snapshot` and `_project_sse_order_depth_payload`).

The stream arrives as lines without terminators.  A snapshot is the data of the
first block whose event is the wanted one, ORDER_DEPTH in the code; decoding its JSON
is not modelled.
*/
module Sse {
  import opened Wrappers

  const ORDER_DEPTH := "ORDER_DEPTH"

  // ---- one line ----

  datatype Field = Comment | Field(name: string, value: string)

  function IndexOf(s: string, c: char): (i: nat)
    ensures i <= |s|
    ensures i < |s| ==> s[i] == c
    ensures forall j | 0 <= j < i :: s[j] != c
  {
    if s == [] || s[0] == c then 0 else 1 + IndexOf(s[1..], c)
  }

  /** A line's field name and value; one leading space of the value is dropped. */
  function ParseLine(line: string): Field {
    if line != "" && line[0] == ':' then Comment
    else
      var colon := IndexOf(line, ':');
      if colon == |line| then Field(line, "")
      else
        var raw := line[colon + 1..];
        Field(line[..colon], if raw != "" && raw[0] == ' ' then raw[1..] else raw)
  }

  predicate HasName(line: string, name: string) {
    ParseLine(line).Field? && ParseLine(line).name == name
  }

  function StripLeft(s: string): string {
    if s != "" && IsSpace(s[0]) then StripLeft(s[1..]) else s
  }

  function StripRight(s: string): string {
    if s != "" && IsSpace(s[|s| - 1]) then StripRight(s[..|s| - 1]) else s
  }

  function Strip(s: string): string {
    StripRight(StripLeft(s))
  }

  /** An event name that is not empty and has no surrounding white space. */
  predicate IsBare(name: string) {
    name != "" && Strip(name) == name
  }

  lemma OrderDepthIsBare()
    ensures IsBare(ORDER_DEPTH)
  {
    assert StripLeft(ORDER_DEPTH) == ORDER_DEPTH;
  }

  // ---- what a line says ----

  predicate Without(s: string, c: char) {
    forall i | 0 <= i < |s| :: s[i] != c
  }

  /** The line is the name alone, or the name, a colon, and the value after at most one space. */
  predicate Says(line: string, name: string, value: string) {
    || (line == name && value == "" && Without(line, ':'))
    || (name != "" && Without(name, ':') &&
        (|| line == name + ":" + " " + value
         || (line == name + ":" + value && (value == "" || value[0] != ' '))))
  }

  lemma ColonAt(line: string, k: nat)
    requires k < |line| && line[k] == ':' && Without(line[..k], ':')
    ensures IndexOf(line, ':') == k
  {
    assert forall i | 0 <= i < k :: line[i] == line[..k][i];
  }

  lemma SaysParses(line: string, name: string, value: string)
    requires Says(line, name, value)
    ensures ParseLine(line) == Field(name, value)
  {
    if line == name && value == "" && Without(line, ':') {
      assert IndexOf(line, ':') == |line|;
    } else {
      assert line[..|name|] == name && line[|name|] == ':';
      ColonAt(line, |name|);
      if line == name + ":" + " " + value {
        assert line[|name| + 1..] == " " + value;
      } else {
        assert line[|name| + 1..] == value;
      }
    }
  }

  lemma ParsesSays(line: string, name: string, value: string)
    requires ParseLine(line) == Field(name, value)
    ensures Says(line, name, value)
  {
    var colon := IndexOf(line, ':');
    if colon < |line| {
      var raw := line[colon + 1..];
      assert name == line[..colon];
      assert line == name + ":" + raw;
      if raw != "" && raw[0] == ' ' {
        assert raw == " " + value;
        assert line == name + ":" + " " + value;
      }
    }
  }

  /** A line is a comment exactly when it starts with a colon, and otherwise it is read as what it says. */
  lemma LineMeans(line: string, name: string, value: string)
    ensures ParseLine(line) == Comment <==> line != "" && line[0] == ':'
    ensures ParseLine(line) == Field(name, value) <==> Says(line, name, value)
  {
    if ParseLine(line) == Field(name, value) { ParsesSays(line, name, value); }
    if Says(line, name, value) { SaysParses(line, name, value); }
  }

  predicate Blank(s: string) {
    forall i | 0 <= i < |s| :: IsSpace(s[i])
  }

  /** No white space at either end. */
  predicate Trimmed(s: string) {
    s == "" || (!IsSpace(s[0]) && !IsSpace(s[|s| - 1]))
  }

  lemma {:induction false} LeftStripped(s: string) returns (before: string)
    ensures Blank(before) && s == before + StripLeft(s)
    ensures StripLeft(s) == "" || !IsSpace(StripLeft(s)[0])
  {
    if s != "" && IsSpace(s[0]) {
      before := LeftStripped(s[1..]);
      before := [s[0]] + before;
    } else {
      before := "";
    }
  }

  lemma {:induction false} RightStripped(s: string) returns (after: string)
    ensures Blank(after) && s == StripRight(s) + after
    ensures StripRight(s) == "" || !IsSpace(StripRight(s)[|StripRight(s)| - 1])
  {
    if s != "" && IsSpace(s[|s| - 1]) {
      after := RightStripped(s[..|s| - 1]);
      after := after + [s[|s| - 1]];
    } else {
      after := "";
    }
  }

  /** Stripping removes white space at both ends and nothing else. */
  lemma StripMeans(s: string) returns (before: string, after: string)
    ensures Blank(before) && Blank(after) && s == before + Strip(s) + after && Trimmed(Strip(s))
  {
    before := LeftStripped(s);
    after := RightStripped(StripLeft(s));
    if Strip(s) != "" { assert Strip(s)[0] == StripLeft(s)[0]; }
  }

  // ---- blocks ----

  predicate NoBlanks(block: seq<string>) {
    forall i | 0 <= i < |block| :: block[i] != ""
  }

  function FirstBlank(lines: seq<string>): (i: nat)
    ensures i <= |lines|
  {
    if lines == [] || lines[0] == "" then 0 else 1 + FirstBlank(lines[1..])
  }

  /** The lines of each block; a blank line ends a block and the end of the stream ends the last one. */
  function Blocks(lines: seq<string>): (r: seq<seq<string>>)
    ensures r != []
    decreases |lines|
  {
    var k := FirstBlank(lines);
    [lines[..k]] + if k == |lines| then [] else Blocks(lines[k + 1..])
  }

  /** The last `event` value of a block, stripped; empty when there is none. */
  function BlockEvent(block: seq<string>): string {
    if block == [] then ""
    else
      var last := block[|block| - 1];
      if HasName(last, "event") then Strip(ParseLine(last).value)
      else BlockEvent(block[..|block| - 1])
  }

  /** All `data` values of a block, in order. */
  function BlockData(block: seq<string>): seq<string> {
    if block == [] then []
    else
      var last := block[|block| - 1];
      BlockData(block[..|block| - 1])
      + if HasName(last, "data") then [ParseLine(last).value] else []
  }

  function JoinLines(data: seq<string>): string {
    if data == [] then ""
    else if |data| == 1 then data[0]
    else data[0] + "\n" + JoinLines(data[1..])
  }

  /** The payload of the first wanted block, with that block's position. */
  function FirstSnapshot(blocks: seq<seq<string>>, at: nat, wanted: string): Option<(nat, string)> {
    if blocks == [] then None
    else if BlockEvent(blocks[0]) == wanted then Some((at, JoinLines(BlockData(blocks[0]))))
    else FirstSnapshot(blocks[1..], at + 1, wanted)
  }

  /** The declarative parser. */
  function Parse(lines: seq<string>, wanted: string): Option<(nat, string)> {
    FirstSnapshot(Blocks(lines), 0, wanted)
  }

  // ---- the line loop ----

  lemma {:induction false} FirstBlankIs(block: seq<string>, after: seq<string>)
    requires NoBlanks(block)
    ensures FirstBlank(block) == |block|
    ensures FirstBlank(block + [""] + after) == |block|
  {
    if block == [] {
      assert block + [""] + after == [""] + after;
    } else {
      assert NoBlanks(block[1..]);
      FirstBlankIs(block[1..], after);
      assert (block + [""] + after)[1..] == block[1..] + [""] + after;
    }
  }

  /** A blank line closes the block before it. */
  lemma BlockCloses(block: seq<string>, after: seq<string>)
    requires NoBlanks(block)
    ensures Blocks(block + [""] + after) == [block] + Blocks(after)
    ensures Blocks(block) == [block]
  {
    var whole := block + [""] + after;
    FirstBlankIs(block, after);
    assert whole[..|block|] == block && whole[|block| + 1..] == after;
    assert block[..|block|] == block;
  }

  lemma BlockGrows(block: seq<string>, line: string)
    ensures BlockEvent(block + [line])
         == if HasName(line, "event") then Strip(ParseLine(line).value)
            else BlockEvent(block)
    ensures BlockData(block + [line])
         == BlockData(block)
            + if HasName(line, "data") then [ParseLine(line).value] else []
  {
  }

  /** What remains to be found once a block has been closed. */
  lemma BlockDecides(block: seq<string>, after: seq<string>, at: nat, wanted: string)
    requires NoBlanks(block)
    ensures FirstSnapshot(Blocks(block + [""] + after), at, wanted)
         == if BlockEvent(block) == wanted then Some((at, JoinLines(BlockData(block))))
            else FirstSnapshot(Blocks(after), at + 1, wanted)
    ensures FirstSnapshot(Blocks(block), at, wanted)
         == if BlockEvent(block) == wanted then Some((at, JoinLines(BlockData(block)))) else None
  {
    BlockCloses(block, after);
    assert ([block] + Blocks(after))[1..] == Blocks(after);
  }

  /** What the parser finds when a block starts at line `start`. */
  ghost function From(lines: seq<string>, start: nat, at: nat, wanted: string): Option<(nat, string)>
    requires start <= |lines|
  {
    FirstSnapshot(Blocks(lines[start..]), at, wanted)
  }

  function Closed(block: seq<string>, at: nat, wanted: string): Option<(nat, string)> {
    if BlockEvent(block) == wanted then Some((at, JoinLines(BlockData(block)))) else None
  }

  lemma EmptyBlock(lines: seq<string>, i: nat)
    requires i <= |lines|
    ensures NoBlanks(lines[i..i]) && BlockEvent(lines[i..i]) == "" && BlockData(lines[i..i]) == []
  {
  }

  lemma FromFirst(lines: seq<string>, wanted: string)
    ensures From(lines, 0, 0, wanted) == Parse(lines, wanted)
  {
  }

  lemma SplitAt<T>(lines: seq<T>, start: nat, i: nat)
    requires start <= i < |lines|
    ensures lines[start..] == lines[start..i] + [lines[i]] + lines[i + 1..]
  {
  }

  lemma FromBlank(lines: seq<string>, start: nat, i: nat, at: nat, wanted: string)
    requires start <= i < |lines| && lines[i] == "" && NoBlanks(lines[start..i])
    ensures From(lines, start, at, wanted)
         == if Closed(lines[start..i], at, wanted).Some? then Closed(lines[start..i], at, wanted) else From(lines, i + 1, at + 1, wanted)
  {
    BlockDecides(lines[start..i], lines[i + 1..], at, wanted);
    SplitAt(lines, start, i);
  }

  lemma FromLast(lines: seq<string>, start: nat, at: nat, wanted: string)
    requires start <= |lines| && NoBlanks(lines[start..|lines|])
    ensures From(lines, start, at, wanted) == Closed(lines[start..|lines|], at, wanted)
  {
    assert lines[start..|lines|] == lines[start..];
    BlockDecides(lines[start..], [], at, wanted);
  }

  lemma OneMoreLine(lines: seq<string>, start: nat, i: nat)
    requires start <= i < |lines|
    ensures lines[start..i + 1] == lines[start..i] + [lines[i]]
    ensures lines[i] != "" && NoBlanks(lines[start..i]) ==> NoBlanks(lines[start..i + 1])
  {
  }

  /** One line of an open block. */
  method ReadLine(event: string, dataLines: seq<string>, line: string, ghost block: seq<string>)
    returns (newEvent: string, newData: seq<string>)
    requires event == BlockEvent(block) && dataLines == BlockData(block)
    ensures newEvent == BlockEvent(block + [line]) && newData == BlockData(block + [line])
  {
    BlockGrows(block, line);
    newEvent, newData := event, dataLines;
    if HasName(line, "event") {
      newEvent := Strip(ParseLine(line).value);
    } else if HasName(line, "data") {
      newData := newData + [ParseLine(line).value];
    }
  }

  /** The state of the line loop before line `i`: the open block starts at `start`. */
  ghost predicate Reading(lines: seq<string>, start: nat, i: nat, event: string, dataLines: seq<string>) {
    && start <= i <= |lines| && NoBlanks(lines[start..i])
    && event == BlockEvent(lines[start..i]) && dataLines == BlockData(lines[start..i])
  }

  /** The code's line loop returns exactly what the declarative parser returns. */
  method ReadStream(lines: seq<string>, wanted: string) returns (snapshot: Option<(nat, string)>)
    ensures snapshot == Parse(lines, wanted)
  {
    hide BlockEvent, BlockData, Blocks, FirstSnapshot, JoinLines;
    var event := "";
    var dataLines: seq<string> := [];
    var closed := 0;
    ghost var start := 0;
    ghost var goal := Parse(lines, wanted);
    FromFirst(lines, wanted);
    EmptyBlock(lines, 0);
    for i := 0 to |lines|
      invariant Reading(lines, start, i, event, dataLines) && From(lines, start, closed, wanted) == goal
    {
      if lines[i] == "" {
        FromBlank(lines, start, i, closed, wanted);
        if event == wanted {
          return Some((closed, JoinLines(dataLines)));
        }
        event, dataLines, closed := "", [], closed + 1;
        start := i + 1;
        EmptyBlock(lines, start);
      } else {
        OneMoreLine(lines, start, i);
        event, dataLines := ReadLine(event, dataLines, lines[i], lines[start..i]);
      }
    }
    FromLast(lines, start, closed, wanted);
    if event == wanted {
      return Some((closed, JoinLines(dataLines)));
    }
    snapshot := None;
  }

  /** The client reads ORDER_DEPTH, which is a bare name. */
  method ReadOrderDepth(lines: seq<string>) returns (snapshot: Option<(nat, string)>)
    ensures snapshot == Parse(lines, ORDER_DEPTH) && IsBare(ORDER_DEPTH)
  {
    OrderDepthIsBare();
    snapshot := ReadStream(lines, ORDER_DEPTH);
  }

  // ---- inverse of a serializer ----

  datatype Event = Event(name: string, data: seq<string>)

  function DataLines(data: seq<string>): seq<string> {
    if data == [] then [] else DataLines(data[..|data| - 1]) + ["data: " + data[|data| - 1]]
  }

  function SerializeEvent(e: Event): seq<string> {
    ["event: " + e.name] + DataLines(e.data)
  }

  function Serialize(events: seq<Event>): seq<string> {
    if events == [] then [] else SerializeEvent(events[0]) + [""] + Serialize(events[1..])
  }

  function FirstOrderDepth(events: seq<Event>, at: nat, wanted: string): Option<(nat, string)> {
    if events == [] then None
    else if Strip(events[0].name) == wanted then Some((at, JoinLines(events[0].data)))
    else FirstOrderDepth(events[1..], at + 1, wanted)
  }

  /** `name: value` parses back to the name and the value, whatever the value contains. */
  lemma PrefixedLine(name: string, value: string)
    requires name != "" && forall i | 0 <= i < |name| :: name[i] != ':'
    ensures ParseLine(name + ": " + value) == Field(name, value)
  {
    var line := name + ": " + value;
    assert line[|name|] == ':';
    assert forall i | 0 <= i < |name| :: line[i] == name[i];
    assert IndexOf(line, ':') == |name|;
    assert line[..|name|] == name && line[|name| + 1..] == " " + value;
  }

  lemma EventLine(name: string)
    ensures HasName("event: " + name, "event") && !HasName("event: " + name, "data")
    ensures ParseLine("event: " + name).value == name
  {
    PrefixedLine("event", name);
    assert "event" + ": " == "event: ";
    assert |"data"| == 4 && |"event"| == 5;
  }

  lemma DataLine(value: string)
    ensures HasName("data: " + value, "data") && !HasName("data: " + value, "event")
    ensures ParseLine("data: " + value).value == value
  {
    PrefixedLine("data", value);
    assert "data" + ": " == "data: ";
    assert |"data"| == 4 && |"event"| == 5;
  }

  lemma {:induction false} EventBlock(name: string, data: seq<string>)
    ensures NoBlanks(SerializeEvent(Event(name, data)))
    ensures BlockEvent(SerializeEvent(Event(name, data))) == Strip(name)
    ensures BlockData(SerializeEvent(Event(name, data))) == data
  {
    if data == [] {
      EventLine(name);
      BlockGrows([], "event: " + name);
      assert SerializeEvent(Event(name, data)) == [] + ["event: " + name];
    } else {
      var init := data[..|data| - 1];
      var block := SerializeEvent(Event(name, init));
      EventBlock(name, init);
      DataLine(data[|data| - 1]);
      BlockGrows(block, "data: " + data[|data| - 1]);
      assert data == init + [data[|data| - 1]];
      assert SerializeEvent(Event(name, data)) == block + ["data: " + data[|data| - 1]];
    }
  }

  predicate IsEventLine(line: string) {
    line == "event" || "event:" <= line
  }

  predicate IsDataLine(line: string) {
    line == "data" || "data:" <= line
  }

  lemma RawSays(line: string, name: string, raw: string) returns (value: string)
    requires name != "" && Without(name, ':') && line == name + ":" + raw
    ensures Says(line, name, value)
  {
    if raw != "" && raw[0] == ' ' {
      value := raw[1..];
      assert raw == " " + value;
      assert line == name + ":" + " " + value;
    } else {
      value := raw;
    }
  }

  lemma NameBefore(line: string, name: string)
    requires name != "" && Without(name, ':')
    ensures HasName(line, name) <==> line == name || name + ":" <= line
  {
    if HasName(line, name) {
      hide ParseLine;
      ParsesSays(line, name, ParseLine(line).value);
      assert line != name ==> line[..|name| + 1] == name + ":";
    }
    if line == name {
      hide ParseLine;
      SaysParses(line, name, "");
    } else if name + ":" <= line {
      hide ParseLine, Says;
      assert line == name + ":" + line[|name| + 1..];
      var value := RawSays(line, name, line[|name| + 1..]);
      SaysParses(line, name, value);
    }
  }

  lemma EventLineSays(line: string, value: string)
    ensures Says(line, "event", value) ==> HasName(line, "event") && ParseLine(line) == Field("event", value)
    ensures !IsEventLine(line) ==> !HasName(line, "event")
  {
    NameBefore(line, "event");
    assert "event" + ":" == "event:";
    if Says(line, "event", value) { SaysParses(line, "event", value); }
  }

  lemma NextLine(block: seq<string>, line: string)
    ensures !IsEventLine(line) ==> BlockEvent(block + [line]) == BlockEvent(block)
  {
    BlockGrows(block, line);
    EventLineSays(line, "");
  }

  lemma ThisLine(block: seq<string>, line: string, value: string)
    requires Says(line, "event", value)
    ensures BlockEvent(block + [line]) == Strip(value)
  {
    BlockGrows(block, line);
    EventLineSays(line, value);
  }

  /** The last `event` line of a block names its event, whatever other lines it has. */
  lemma {:induction false} LastEventWins(before: seq<string>, line: string, value: string, after: seq<string>)
    requires Says(line, "event", value) && forall i | 0 <= i < |after| :: !IsEventLine(after[i])
    ensures BlockEvent(before + [line] + after) == Strip(value)
  {
    hide BlockEvent, Says, IsEventLine, Strip;
    if after == [] {
      assert before + [line] + after == before + [line];
      ThisLine(before, line, value);
    } else {
      var last := |after| - 1;
      var init := before + [line] + after[..last];
      LastEventWins(before, line, value, after[..last]);
      NextLine(init, after[last]);
      assert before + [line] + after == init + [after[last]];
    }
  }

  /** A block without an `event` line has no event name. */
  lemma {:induction false} NoEvent(block: seq<string>)
    requires forall i | 0 <= i < |block| :: !IsEventLine(block[i])
    ensures BlockEvent(block) == ""
  {
    if block != [] {
      NoEvent(block[..|block| - 1]);
      NameBefore(block[|block| - 1], "event");
      assert "event" + ":" == "event:";
    }
  }

  /** Each `data` line adds its value after those before it; no other line adds any. */
  lemma DataInOrder(block: seq<string>, line: string, value: string)
    ensures Says(line, "data", value) ==> BlockData(block + [line]) == BlockData(block) + [value]
    ensures !IsDataLine(line) ==> BlockData(block + [line]) == BlockData(block)
    ensures BlockData([]) == []
  {
    BlockGrows(block, line);
    NameBefore(line, "data");
    assert "data" + ":" == "data:";
    if Says(line, "data", value) { SaysParses(line, "data", value); }
  }

  /** Reading a serialized event list yields its first wanted event with its data lines joined by LF. */
  lemma {:induction false} ParseInvertsSerialize(events: seq<Event>, at: nat, wanted: string)
    requires wanted != ""
    ensures FirstSnapshot(Blocks(Serialize(events)), at, wanted) == FirstOrderDepth(events, at, wanted)
  {
    if events == [] {
      BlockDecides([], [], at, wanted);
    } else {
      var e := events[0];
      EventBlock(e.name, e.data);
      BlockDecides(SerializeEvent(e), Serialize(events[1..]), at, wanted);
      ParseInvertsSerialize(events[1..], at + 1, wanted);
    }
  }

  // ---- comparison with section 9.2.6 of the WHATWG HTML Standard ----

  /** The event type buffer: the last `event` value, as received. */
  function TypeBuffer(block: seq<string>): string {
    if block == [] then ""
    else if HasName(block[|block| - 1], "event") then ParseLine(block[|block| - 1]).value
    else TypeBuffer(block[..|block| - 1])
  }

  /** The data buffer: every `data` value followed by LF. */
  function DataBuffer(data: seq<string>): string {
    if data == [] then "" else data[0] + "\n" + DataBuffer(data[1..])
  }

  /** Dispatch: nothing for an empty data buffer, otherwise the buffer without its last LF. */
  function Dispatched(block: seq<string>): Option<string> {
    var buffer := DataBuffer(BlockData(block));
    if buffer == "" then None else Some(buffer[..|buffer| - 1])
  }

  /** The first dispatched wanted event; `terminated` are the blocks a blank line ended. */
  function FirstDispatched(terminated: seq<seq<string>>, at: nat, wanted: string): Option<(nat, string)> {
    if terminated == [] then None
    else if TypeBuffer(terminated[0]) == wanted && Dispatched(terminated[0]).Some? then
      Some((at, Dispatched(terminated[0]).value))
    else FirstDispatched(terminated[1..], at + 1, wanted)
  }

  /** The standard discards an event that the stream leaves unterminated. */
  function StandardParse(lines: seq<string>, wanted: string): Option<(nat, string)> {
    FirstDispatched(Blocks(lines)[..|Blocks(lines)| - 1], 0, wanted)
  }

  lemma {:induction false} JoinIsBuffer(data: seq<string>)
    ensures data != [] ==> DataBuffer(data) == JoinLines(data) + "\n"
    ensures data == [] <==> DataBuffer(data) == ""
  {
    if |data| == 1 {
      assert DataBuffer(data[1..]) == "";
    } else if |data| > 1 {
      JoinIsBuffer(data[1..]);
    }
  }

  lemma {:induction false} EventIsStrippedType(block: seq<string>)
    ensures BlockEvent(block) == Strip(TypeBuffer(block))
  {
    if block != [] { EventIsStrippedType(block[..|block| - 1]); }
  }

  /** The standard sees a wanted event in this block: exact type and at least one data line. */
  predicate Conforming(block: seq<string>, wanted: string) {
    TypeBuffer(block) == wanted && BlockData(block) != []
  }

  lemma ConformingBlock(block: seq<string>, wanted: string)
    requires IsBare(wanted)
    ensures Conforming(block, wanted) <==> TypeBuffer(block) == wanted && Dispatched(block).Some?
    ensures Conforming(block, wanted) ==>
      BlockEvent(block) == wanted && Dispatched(block) == Some(JoinLines(BlockData(block)))
  {
    JoinIsBuffer(BlockData(block));
    EventIsStrippedType(block);
  }

  lemma SplitFirst(lines: seq<string>) returns (block: seq<string>, rest: seq<string>)
    requires !NoBlanks(lines)
    ensures NoBlanks(block) && lines == block + [""] + rest
  {
    var k := 0;
    while lines[k] != ""
      invariant k < |lines| && NoBlanks(lines[..k]) && !NoBlanks(lines[k..])
      decreases |lines| - k
    {
      assert lines[..k + 1] == lines[..k] + [lines[k]];
      assert lines[k..] == [lines[k]] + lines[k + 1..];
      k := k + 1;
    }
    block, rest := lines[..k], lines[k + 1..];
  }

  lemma {:induction false} ClosingAddsEmptyBlock(lines: seq<string>)
    ensures Blocks(lines + [""]) == Blocks(lines) + [[]]
    decreases |lines|
  {
    if NoBlanks(lines) {
      ClosingOnly(lines);
    } else {
      var block, rest := SplitFirst(lines);
      ClosingAddsEmptyBlock(rest);
      ClosingAfter(block, rest);
    }
  }

  lemma ClosingOnly(block: seq<string>)
    requires NoBlanks(block)
    ensures Blocks(block + [""]) == Blocks(block) + [[]]
  {
    BlockCloses(block, []);
    assert block + [""] + [] == block + [""];
  }

  lemma Regroup<T>(x: seq<T>, y: seq<T>, z: seq<T>)
    ensures x + y + z == x + (y + z)
  {
  }

  lemma ClosingAfter(block: seq<string>, rest: seq<string>)
    requires NoBlanks(block)
    requires Blocks(rest + [""]) == Blocks(rest) + [[]]
    ensures Blocks(block + [""] + rest + [""]) == Blocks(block + [""] + rest) + [[]]
  {
    calc {
      Blocks(block + [""] + rest + [""]);
    ==  { Regroup(block + [""], rest, [""]); }
      Blocks(block + [""] + (rest + [""]));
    ==  { BlockCloses(block, rest + [""]); }
      [block] + (Blocks(rest) + [[]]);
    ==  { Regroup([block], Blocks(rest), [[]]); }
      [block] + Blocks(rest) + [[]];
    ==  { BlockCloses(block, rest); }
      Blocks(block + [""] + rest) + [[]];
    }
  }

  lemma {:induction false} FirstsAgree(blocks: seq<seq<string>>, at: nat, wanted: string)
    requires IsBare(wanted)
    ensures FirstSnapshot(blocks, at, wanted).Some? ==> at <= FirstSnapshot(blocks, at, wanted).value.0 < at + |blocks|
    ensures FirstDispatched(blocks, at, wanted).Some? ==> at <= FirstDispatched(blocks, at, wanted).value.0
    ensures FirstSnapshot(blocks, at, wanted) == FirstDispatched(blocks, at, wanted)
       <==> FirstSnapshot(blocks, at, wanted).Some? ==> Conforming(blocks[FirstSnapshot(blocks, at, wanted).value.0 - at], wanted)
  {
    if blocks != [] {
      hide BlockEvent, BlockData, JoinLines, Conforming, Dispatched, IsBare;
      ConformingBlock(blocks[0], wanted);
      FirstsAgree(blocks[1..], at + 1, wanted);
    }
  }

  /**
  With the final block terminated, the code agrees with the standard exactly when
  there is no snapshot or its block names the event without surrounding white
  space and carries data: the code also strips the name and accepts no data.
  */
  lemma AgreesWithStandardIff(lines: seq<string>, wanted: string)
    requires IsBare(wanted)
    ensures Parse(lines, wanted).Some? ==> Parse(lines, wanted).value.0 < |Blocks(lines)|
    ensures Parse(lines, wanted) == StandardParse(lines + [""], wanted)
       <==> Parse(lines, wanted).Some? ==> Conforming(Blocks(lines)[Parse(lines, wanted).value.0], wanted)
  {
    StandardSeesAllBlocks(lines, wanted);
    FirstsAgree(Blocks(lines), 0, wanted);
  }

  lemma {:induction false} SnapshotInPrefix(blocks: seq<seq<string>>, n: nat, at: nat, wanted: string)
    requires n <= |blocks|
    ensures var whole, part := FirstSnapshot(blocks, at, wanted), FirstSnapshot(blocks[..n], at, wanted);
            part == if whole.Some? && whole.value.0 < at + n then whole else None
    ensures FirstSnapshot(blocks, at, wanted).Some? ==> at <= FirstSnapshot(blocks, at, wanted).value.0 < at + |blocks|
  {
    if blocks != [] {
      if n > 0 {
        SnapshotInPrefix(blocks[1..], n - 1, at + 1, wanted);
        assert blocks[..n][1..] == blocks[1..][..n - 1];
      } else {
        SnapshotInPrefix(blocks[1..], 0, at + 1, wanted);
      }
    }
  }

  /**
  On the stream as received, terminated or not, the code agrees with the standard exactly
  when there is no snapshot, or its block conforms and is not the last one, which the end
  of the stream leaves unterminated.
  */
  lemma AgreesAsReceivedIff(lines: seq<string>, wanted: string)
    requires IsBare(wanted)
    ensures Parse(lines, wanted).Some? ==> Parse(lines, wanted).value.0 < |Blocks(lines)|
    ensures Parse(lines, wanted) == StandardParse(lines, wanted)
       <==> (Parse(lines, wanted).Some? ==>
               Parse(lines, wanted).value.0 < |Blocks(lines)| - 1 && Conforming(Blocks(lines)[Parse(lines, wanted).value.0], wanted))
  {
    hide Blocks, FirstSnapshot, FirstDispatched, BlockEvent, BlockData;
    TerminatedAgreeIff(Blocks(lines), wanted);
  }

  lemma TerminatedAgreeIff(blocks: seq<seq<string>>, wanted: string)
    requires IsBare(wanted) && blocks != []
    ensures var found := FirstSnapshot(blocks, 0, wanted);
            && (found.Some? ==> found.value.0 < |blocks|)
            && (found == FirstDispatched(blocks[..|blocks| - 1], 0, wanted)
                <==> (found.Some? ==> found.value.0 < |blocks| - 1 && Conforming(blocks[found.value.0], wanted)))
  {
    hide FirstSnapshot, FirstDispatched, BlockEvent, BlockData;
    SnapshotInPrefix(blocks, |blocks| - 1, 0, wanted);
    FirstsAgree(blocks[..|blocks| - 1], 0, wanted);
  }

  lemma StandardSeesAllBlocks(lines: seq<string>, wanted: string)
    ensures StandardParse(lines + [""], wanted) == FirstDispatched(Blocks(lines), 0, wanted)
  {
    ClosingAddsEmptyBlock(lines);
    var blocks := Blocks(lines);
    assert (blocks + [[]])[..|blocks|] == blocks;
  }

  // ---- projection of the decoded levels ----

  datatype Level = Level(buyPrice: Option<real>, buyVolume: Option<real>, sellPrice: Option<real>, sellVolume: Option<real>)

  datatype Quote = Quote(price: Option<real>, volume: Option<real>)

  /** An absent or 0/0 side becomes null/null; any other side must be complete and positive. */
  function ProjectSide(price: Option<real>, volume: Option<real>): Result<Quote, string> {
    if (price.Some? && price.value < 0.0) || (volume.Some? && volume.value < 0.0) then Err("Invalid level")
    else if (price.None? || price.value == 0.0) && (volume.None? || volume.value == 0.0) then Ok(Quote(None, None))
    else if price.None? || volume.None? || price.value <= 0.0 || volume.value <= 0.0 then Err("Incomplete order-depth side")
    else Ok(Quote(price, volume))
  }

  predicate Complete(price: Option<real>, volume: Option<real>) {
    (price.None? && volume.None?) || (price.Some? && volume.Some? && price.value > 0.0 && volume.value > 0.0)
  }

  /** The sides the projection accepts. */
  predicate Acceptable(price: Option<real>, volume: Option<real>) {
    Complete(price, volume) || ((price.None? || price.value == 0.0) && (volume.None? || volume.value == 0.0))
  }

  /** The projected side is complete: the upstream one where that has a positive price, absent otherwise. */
  predicate KeepsSide(price: Option<real>, volume: Option<real>, newPrice: Option<real>, newVolume: Option<real>) {
    && Complete(newPrice, newVolume)
    && (newPrice.Some? <==> price.Some? && price.value > 0.0)
    && (newPrice.Some? ==> newPrice == price && newVolume == volume)
  }

  method ProjectLevels(levels: seq<Level>, maxLevels: nat) returns (r: Result<seq<Level>, string>)
    ensures r.Ok? <==> forall i | 0 <= i < Min(maxLevels, |levels|) ::
      Acceptable(levels[i].buyPrice, levels[i].buyVolume) && Acceptable(levels[i].sellPrice, levels[i].sellVolume)
    ensures r.Ok? ==> |r.value| == Min(maxLevels, |levels|)
    ensures r.Ok? ==> forall i | 0 <= i < |r.value| ::
      && KeepsSide(levels[i].buyPrice, levels[i].buyVolume, r.value[i].buyPrice, r.value[i].buyVolume)
      && KeepsSide(levels[i].sellPrice, levels[i].sellVolume, r.value[i].sellPrice, r.value[i].sellVolume)
  {
    var projected: seq<Level> := [];
    for i := 0 to Min(maxLevels, |levels|)
      invariant |projected| == i
      invariant forall j | 0 <= j < i ::
        Acceptable(levels[j].buyPrice, levels[j].buyVolume) && Acceptable(levels[j].sellPrice, levels[j].sellVolume)
      invariant forall j | 0 <= j < i ::
        ProjectSide(levels[j].buyPrice, levels[j].buyVolume) == Ok(Quote(projected[j].buyPrice, projected[j].buyVolume))
      invariant forall j | 0 <= j < i ::
        ProjectSide(levels[j].sellPrice, levels[j].sellVolume) == Ok(Quote(projected[j].sellPrice, projected[j].sellVolume))
    {
      var buy := ProjectSide(levels[i].buyPrice, levels[i].buyVolume);
      var sell := ProjectSide(levels[i].sellPrice, levels[i].sellVolume);
      if buy.Err? {
        return Err(buy.error);
      }
      if sell.Err? {
        return Err(sell.error);
      }
      projected := projected + [Level(buy.value.price, buy.value.volume, sell.value.price, sell.value.volume)];
    }
    r := Ok(projected);
  }
}
