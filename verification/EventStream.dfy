module EventStream {
  /** Server-sent events as the stream's sender frames them
      (internal/web/stream_sender.go) and as the load client reads them back
      (cmd/loadgen/main.go): section 9.2.6 of the WHATWG HTML standard. A char
      stands for one byte. */

  import opened Common
  import opened ChatBlocks
  import opened Decimal
  import opened LineEnds
  import ChatGrammar

  datatype Outgoing = Outgoing(ephemeral: bool, id: int, name: string, data: string)

  datatype Item = Frame(out: Outgoing) | Heartbeat

  /** What the reader reports of a complete event. */
  datatype Delivery = Delivery(at: nat, name: string, data: string)

  const RESET := "reset"
  const SPACE := " "
  const ID_LIMIT: nat := 0x1_0000_0000_0000_0000

  /** The longest line the scanner returns is one shorter: its buffer holds
      1 << 20 bytes and the line's end. */
  const LINE_LIMIT := 0x10_0000

  // ----- the sender -----

  function IntText(id: int): string {
    if id < 0 then "-" + Print(-id) else Print(id)
  }

  function DataText(lines: seq<string>): string {
    if lines == [] then "" else "data: " + lines[0] + "\n" + DataText(lines[1..])
  }

  function DataLines(out: Outgoing): seq<string> {
    Lines(WithoutCr(WithoutCrlf(out.data)))
  }

  /** The lines before the blank one that completes the event. */
  function Head(item: Item): string {
    match item
    case Heartbeat => ": heartbeat\n"
    case Frame(out) =>
      (if out.ephemeral then "" else "id: " + IntText(out.id) + "\n") + "event: " + out.name + "\n" + DataText(DataLines(out))
  }

  function ItemText(item: Item): string {
    Head(item) + "\n"
  }

  function Wire(items: seq<Item>): string {
    if items == [] then "" else ItemText(items[0]) + Wire(items[1..])
  }

  class SseSender {
    var written: string
    var ended: bool
    ghost var sent: seq<Item>

    /** What arrived is what was sent and, once a write failed, the beginning of
        the item it was writing. */
    ghost predicate Valid()
      reads this
    {
      if ended then exists item: Item, n: nat :: n <= |ItemText(item)| && written == Wire(sent) + ItemText(item)[..n]
      else written == Wire(sent)
    }

    constructor ()
      ensures Valid() && !ended && sent == []
    {
      written, ended, sent := "", false, [];
    }

    /** A write under a deadline: it may fail with any part of it written. */
    method Write(item: Item, text: string) returns (ok: bool)
      requires Valid() && !ended && text == ItemText(item)
      modifies this
      ensures Valid() && ended == !ok && sent == old(sent) + (if ok then [item] else [])
    {
      ok := *;
      if ok {
        written := written + text;
        WireMore(sent, item);
        sent := sent + [item];
      } else {
        var n: int := *;
        n := Max(0, Min(n, |text|));
        written := written + text[..n];
        ended := true;
      }
    }

    method Beat() returns (ok: bool)
      requires Valid() && !ended
      modifies this
      ensures Valid() && ended == !ok && sent == old(sent) + (if ok then [Heartbeat] else [])
    {
      ok := Write(Heartbeat, ": heartbeat\n\n");
    }

    method Send(out: Outgoing) returns (ok: bool)
      requires Valid() && !ended
      modifies this
      ensures Valid() && ended == !ok && sent == old(sent) + (if ok then [Frame(out)] else [])
    {
      var b := Framed(out);
      ok := Write(Frame(out), b);
    }
  }

  /** Send's buffer: an id line unless ephemeral, the name, and each line of the
      data in a field of its own. */
  method Framed(out: Outgoing) returns (b: string)
    ensures b == ItemText(Frame(out))
  {
    hide Print, WithoutCr, WithoutCrlf, Lines, DataText;
    b := "";
    if !out.ephemeral {
      b := b + "id: " + IntText(out.id) + "\n";
    }
    b := b + "event: " + out.name + "\n";
    b := AppendData(b, DataLines(out));
    b := b + "\n";
  }

  method AppendData(head: string, lines: seq<string>) returns (b: string)
    ensures b == head + DataText(lines)
  {
    hide DataText;
    b := head;
    NoData(head);
    for i := 0 to |lines|
      invariant b == head + DataText(lines[..i])
    {
      DataMore(head, lines[..i], lines[i]);
      assert lines[..i] + [lines[i]] == lines[..i + 1];
      b := b + "data: ";
      b := b + lines[i];
      b := b + "\n";
    }
    assert lines[..|lines|] == lines;
  }

  lemma NoData(head: string)
    ensures head + DataText([]) == head
  {
  }

  lemma {:induction false} WireMore(items: seq<Item>, item: Item)
    ensures Wire(items + [item]) == Wire(items) + ItemText(item)
  {
    hide ItemText;
    if items == [] {
      assert items + [item] == [item] && Wire([item][1..]) == "";
    } else {
      assert (items + [item])[1..] == items[1..] + [item];
      WireMore(items[1..], item);
    }
  }

  lemma {:induction false} DataMore(head: string, lines: seq<string>, line: string)
    ensures head + DataText(lines + [line]) == head + DataText(lines) + "data: " + line + "\n"
    decreases |lines|
  {
    if lines == [] {
      assert lines + [line] == [line] && DataText([line][1..]) == "";
    } else {
      assert (lines + [line])[1..] == lines[1..] + [line];
      var start := "data: " + lines[0] + "\n";
      DataMore(start, lines[1..], line);
      assert DataText(lines + [line]) == start + DataText(lines[1..] + [line]);
    }
  }

  // ----- the reader -----

  function DropCr(line: string): string {
    if line != "" && line[|line| - 1] == '\r' then line[..|line| - 1] else line
  }

  /** bufio.Scanner over lines: stops at a line that does not fit its buffer. */
  function Scanned(text: string): seq<string>
    decreases |text|
  {
    if text == "" then []
    else
      var n := ChatGrammar.Find(text, '\n', 0);
      if n >= LINE_LIMIT then []
      else [DropCr(text[..n])] + if n == |text| then [] else Scanned(text[n + 1..])
  }

  datatype Reader = Reader(event: string, data: bool, at: nat, payload: string)

  const FRESH := Reader("", false, 0, "")

  function TrimSpace(s: string): string {
    if s != "" && s[0] == ' ' then s[1..] else s
  }

  function TrimBreak(s: string): string {
    if s != "" && s[|s| - 1] == '\n' then s[..|s| - 1] else s
  }

  /** One field of the event being read. */
  function WithLine(r: Reader, line: string): Reader {
    var n := ChatGrammar.Find(line, ':', 0);
    var field, value := line[..n], TrimSpace(if n == |line| then "" else line[n + 1..]);
    if field == "id" then r.(at := ParseAnyway(value, ID_LIMIT))
    else if field == "event" then r.(event := value)
    else if field == "data" then r.(payload := r.payload + value + "\n", data := true)
    else r
  }

  /** The completed events, and whether a reset was. */
  datatype Report = Report(deliveries: seq<Delivery>, reset: bool)

  function Before(d: seq<Delivery>, rest: Report): Report {
    rest.(deliveries := d + rest.deliveries)
  }

  function ReadLines(lines: seq<string>, r: Reader): Report {
    if lines == [] then Report([], false)
    else if lines[0] != "" then ReadLines(lines[1..], WithLine(r, lines[0]))
    else if r.event == RESET && r.data then Report([], true)
    else Before(if r.data then [Delivery(r.at, r.event, TrimBreak(r.payload))] else [], ReadLines(lines[1..], FRESH))
  }

  function Read(text: string): Report {
    ReadLines(Scanned(text), FRESH)
  }

  /** readReset: `received` are the calls of receive, whose sequence is that of a
      message only, `completed` those of complete. */
  method ReadReset(text: string) returns (reset: bool, received: seq<(nat, string)>, completed: seq<Delivery>)
    ensures Report(completed, reset) == Read(text)
    ensures |received| == |completed|
    ensures forall k :: 0 <= k < |completed| ==>
      received[k] == (if completed[k].name == "message" then completed[k].at else 0, completed[k].data)
  {
    hide Scanned, WithLine, TrimBreak, ReadLines, Before;
    var lines := Scanned(text);
    var r := FRESH;
    received, completed := [], [];
    var k := 0;
    BeforeNone(Read(text));
    assert lines[0..] == lines;
    while k < |lines|
      invariant 0 <= k <= |lines| && |received| == |completed|
      invariant Read(text) == Before(completed, ReadLines(lines[k..], r))
      invariant forall i :: 0 <= i < |completed| ==>
        received[i] == (if completed[i].name == "message" then completed[i].at else 0, completed[i].data)
    {
      var line := lines[k];
      ReadNext(lines, k, r, completed);
      assert completed + [] == completed;
      if line == "" {
        if r.event == RESET && r.data {
          return true, received, completed;
        }
        if r.data {
          var payload := TrimBreak(r.payload);
          received := received + [(if r.event == "message" then r.at else 0, payload)];
          completed := completed + [Delivery(r.at, r.event, payload)];
        }
        r := FRESH;
      } else {
        r := WithLine(r, line);
      }
      k := k + 1;
    }
    reset := false;
    ReadEnd(lines, r, completed);
  }

  lemma BeforeNone(rest: Report)
    ensures Before([], rest) == rest
  {
  }

  lemma ReadNext(lines: seq<string>, k: nat, r: Reader, d: seq<Delivery>)
    requires k < |lines|
    ensures Before(d, ReadLines(lines[k..], r))
         == if lines[k] != "" then Before(d, ReadLines(lines[k + 1..], WithLine(r, lines[k])))
            else if r.event == RESET && r.data then Report(d, true)
            else Before(d + if r.data then [Delivery(r.at, r.event, TrimBreak(r.payload))] else [], ReadLines(lines[k + 1..], FRESH))
  {
    hide WithLine, TrimBreak;
    assert lines[k..][0] == lines[k] && lines[k..][1..] == lines[k + 1..];
    if lines[k] == "" && r.data {
      BeforeMore(d, Delivery(r.at, r.event, TrimBreak(r.payload)), ReadLines(lines[k + 1..], FRESH));
    }
  }

  lemma ReadEnd(lines: seq<string>, r: Reader, d: seq<Delivery>)
    ensures Before(d, ReadLines(lines[|lines|..], r)) == Report(d, false)
  {
  }

  lemma BeforeMore(d: seq<Delivery>, e: Delivery, rest: Report)
    ensures Before(d, Before([e], rest)) == Before(d + [e], rest)
  {
    assert d + ([e] + rest.deliveries) == d + [e] + rest.deliveries;
  }

  // ----- what the reader gets of what was sent -----

  predicate Fits(line: string) {
    |line| < LINE_LIMIT
  }

  predicate AllFit(lines: seq<string>) {
    forall k :: 0 <= k < |lines| ==> Fits(lines[k])
  }

  /** The lines of an item before the blank one. */
  function HeadLines(item: Item): seq<string> {
    match item
    case Heartbeat => [": heartbeat"]
    case Frame(out) =>
      (if out.ephemeral then [] else ["id: " + IntText(out.id)]) + ["event: " + out.name] + Fields(DataLines(out))
  }

  function Fields(lines: seq<string>): seq<string> {
    if lines == [] then [] else ["data: " + lines[0]] + Fields(lines[1..])
  }

  function SentId(out: Outgoing): nat {
    if out.ephemeral || out.id < 0 then 0 else out.id
  }

  /** What should be read: each event in order, its data with unified line ends,
      up to the first reset or the first line the reader has no room for. */
  function Expected(items: seq<Item>): Report {
    if items == [] then Report([], false)
    else if !AllFit(HeadLines(items[0])) then Report([], false)
    else if items[0].Heartbeat? then Expected(items[1..])
    else if items[0].out.name == RESET then Report([], true)
    else Before([Delivery(SentId(items[0].out), items[0].out.name, Unified(items[0].out.data))], Expected(items[1..]))
  }

  /** Names hold no line break, and identifiers fit 64 bits. */
  predicate Sendable(item: Item) {
    item.Frame? ==> '\n' !in item.out.name && '\r' !in item.out.name && item.out.id < ID_LIMIT
  }

  /** How many items are complete in the first n bytes of the wire. */
  function Whole(items: seq<Item>, n: nat): (k: nat)
    ensures k <= |items|
  {
    if items == [] || n < |ItemText(items[0])| then 0 else 1 + Whole(items[1..], n - |ItemText(items[0])|)
  }

  lemma FindBreak(line: string, rest: string)
    requires '\n' !in line
    ensures ChatGrammar.Find(line + "\n" + rest, '\n', 0) == |line|
  {
    var s := line + "\n" + rest;
    assert s[|line|] == '\n' && forall k :: 0 <= k < |line| ==> s[k] == line[k] && line[k] in line;
  }

  lemma ScannedLine(line: string, rest: string)
    requires '\n' !in line && '\r' !in line
    ensures Scanned(line + "\n" + rest) == if Fits(line) then [line] + Scanned(rest) else []
  {
    FindBreak(line, rest);
    var s := line + "\n" + rest;
    assert s[..|line|] == line && s[|line| + 1..] == rest;
    assert line != "" ==> line[|line| - 1] in line;
  }

  lemma FindColon(field: string, value: string)
    requires ':' !in field
    ensures ChatGrammar.Find(field + ": " + value, ':', 0) == |field|
  {
    var s := field + ": " + value;
    assert s[|field|] == ':' && forall k :: 0 <= k < |field| ==> s[k] == field[k] && field[k] in field;
  }

  lemma FieldRead(field: string, value: string, r: Reader)
    requires ':' !in field
    ensures WithLine(r, field + ": " + value)
         == if field == "id" then r.(at := ParseAnyway(value, ID_LIMIT))
            else if field == "event" then r.(event := value)
            else if field == "data" then r.(payload := r.payload + value + "\n", data := true)
            else r
  {
    hide ParseAnyway;
    FindColon(field, value);
    var line := field + ": " + value;
    assert line[..|field|] == field && line[|field| + 1..] == SPACE + value && (SPACE + value)[1..] == value;
  }

  lemma IdRead(id: int)
    requires id < ID_LIMIT
    ensures ParseAnyway(IntText(id), ID_LIMIT) == Max(id, 0)
    ensures '\n' !in IntText(id) && '\r' !in IntText(id)
  {
    Printed(if id < 0 then -id else id);
    if id < 0 {
      assert IntText(id)[0] == '-';
    }
    var digits := Print(if id < 0 then -id else id);
    forall k | 0 <= k < |IntText(id)| ensures IntText(id)[k] != '\n' && IntText(id)[k] != '\r' {
      if id >= 0 || k > 0 {
        assert IntText(id)[k] == digits[if id < 0 then k - 1 else k];
      }
    }
  }

  /** The rest of the report is read after the lines that fit. */
  lemma ReadField(line: string, rest: string, r: Reader)
    requires '\n' !in line && '\r' !in line && line != ""
    ensures ReadLines(Scanned(line + "\n" + rest), r)
         == if Fits(line) then ReadLines(Scanned(rest), WithLine(r, line)) else Report([], false)
  {
    hide Scanned, WithLine, Fits;
    ScannedLine(line, rest);
    if Fits(line) {
      assert ([line] + Scanned(rest))[1..] == Scanned(rest);
    }
  }

  function Ended(lines: seq<string>): string {
    if lines == [] then "" else lines[0] + "\n" + Ended(lines[1..])
  }

  /** Data fields collect their lines. */
  lemma {:induction false} ReadData(lines: seq<string>, rest: string, r: Reader)
    requires forall k :: 0 <= k < |lines| ==> '\n' !in lines[k] && '\r' !in lines[k]
    ensures ReadLines(Scanned(DataText(lines) + rest), r)
         == if !AllFit(Fields(lines)) then Report([], false)
            else ReadLines(Scanned(rest), r.(payload := r.payload + Ended(lines), data := r.data || lines != []))
  {
    hide Scanned, WithLine, ReadLines, Fits, AllFit, DataText;
    if lines == [] {
      assert DataText(lines) + rest == rest && AllFit(Fields(lines)) by { NoFields(rest); }
      assert r.payload + "" == r.payload;
    } else {
      var line := "data: " + lines[0];
      var more := DataText(lines[1..]) + rest;
      DataSplit(lines, rest);
      FieldsFit(lines);
      ReadField(line, more, r);
      FieldRead("data", lines[0], r);
      assert "data" + ": " + lines[0] == line;
      var next := r.(payload := r.payload + lines[0] + "\n", data := true);
      ReadData(lines[1..], rest, next);
      assert next.payload + Ended(lines[1..]) == r.payload + Ended(lines);
    }
  }

  lemma NoFields(rest: string)
    ensures DataText([]) + rest == rest && AllFit(Fields([]))
  {
  }

  lemma DataSplit(lines: seq<string>, rest: string)
    requires lines != []
    ensures DataText(lines) + rest == "data: " + lines[0] + "\n" + (DataText(lines[1..]) + rest)
  {
  }

  lemma FieldsFit(lines: seq<string>)
    requires lines != []
    ensures AllFit(Fields(lines)) <==> Fits("data: " + lines[0]) && AllFit(Fields(lines[1..]))
  {
    hide Fits;
    assert Fields(lines)[1..] == Fields(lines[1..]);
    assert forall k :: 1 <= k < |Fields(lines)| ==> Fields(lines)[k] == Fields(lines[1..])[k - 1];
    assert forall k :: 0 <= k < |Fields(lines[1..])| ==> Fields(lines[1..])[k] == Fields(lines)[k + 1];
  }

  lemma {:induction false} EndedJoin(lines: seq<string>)
    requires lines != []
    ensures Ended(lines) == Join(lines) + "\n"
  {
    if |lines| > 1 {
      EndedJoin(lines[1..]);
    } else {
      assert Ended(lines[1..]) == "";
    }
  }

  /** The data lines hold no break and join to the unified data. */
  lemma DataFacts(out: Outgoing)
    ensures forall k :: 0 <= k < |DataLines(out)| ==> '\n' !in DataLines(out)[k] && '\r' !in DataLines(out)[k]
    ensures DataLines(out) != [] && TrimBreak(Ended(DataLines(out))) == Unified(out.data)
  {
    hide WithoutCr, WithoutCrlf, Unified, Lines, Join, Ended;
    var text := WithoutCr(WithoutCrlf(out.data));
    Replacements(out.data);
    NoCr(out.data);
    LinesHaveNoBreak(text);
    JoinLines(text);
    EndedJoin(Lines(text));
    assert (text + "\n")[..|text|] == text;
    LinesWithout(text);
  }

  lemma {:induction false} LinesWithout(text: string)
    requires '\r' !in text
    ensures forall k :: 0 <= k < |Lines(text)| ==> '\r' !in Lines(text)[k]
    decreases |text|
  {
    var n := ChatGrammar.Find(text, '\n', 0);
    if n < |text| {
      LinesWithout(text[n + 1..]);
    }
  }

  /** The blank line dispatches what was read before it. */
  lemma ReadBlank(rest: string, r: Reader)
    ensures ReadLines(Scanned("\n" + rest), r)
         == if r.event == RESET && r.data then Report([], true)
            else Before(if r.data then [Delivery(r.at, r.event, TrimBreak(r.payload))] else [], ReadLines(Scanned(rest), FRESH))
  {
    hide Scanned, TrimBreak;
    ScannedLine("", rest);
    assert "" + "\n" + rest == "\n" + rest;
    assert ([""] + Scanned(rest))[1..] == Scanned(rest);
  }

  /** The name and the data, whatever was read before. */
  lemma ReadNamed(out: Outgoing, rest: string, r: Reader)
    requires Sendable(Frame(out)) && r == FRESH.(at := r.at)
    ensures ReadLines(Scanned("event: " + out.name + "\n" + (DataText(DataLines(out)) + ("\n" + rest))), r)
         == if !Fits("event: " + out.name) || !AllFit(Fields(DataLines(out))) then Report([], false)
            else if out.name == RESET then Report([], true)
            else Before([Delivery(r.at, out.name, Unified(out.data))], ReadLines(Scanned(rest), FRESH))
  {
    hide Scanned, WithLine, ReadLines, Fits, AllFit, DataText, DataLines, Unified, TrimBreak, Ended, Fields;
    var line := "event: " + out.name;
    assert "event" + ": " + out.name == line;
    FieldRead("event", out.name, r);
    ReadField(line, DataText(DataLines(out)) + ("\n" + rest), r);
    var named := r.(event := out.name);
    DataFacts(out);
    ReadData(DataLines(out), "\n" + rest, named);
    assert "" + Ended(DataLines(out)) == Ended(DataLines(out));
    ReadBlank(rest, named.(payload := Ended(DataLines(out)), data := true));
  }

  lemma HeadFits(out: Outgoing)
    ensures AllFit(HeadLines(Frame(out)))
       <==> (out.ephemeral || Fits("id: " + IntText(out.id))) && Fits("event: " + out.name) && AllFit(Fields(DataLines(out)))
  {
    hide Fits, Fields, DataLines, IntText;
    var start := (if out.ephemeral then [] else ["id: " + IntText(out.id)]) + ["event: " + out.name];
    var fields := Fields(DataLines(out));
    assert HeadLines(Frame(out)) == start + fields;
    FitBoth(start, fields);
    FitBoth(if out.ephemeral then [] else ["id: " + IntText(out.id)], ["event: " + out.name]);
    FitOne("event: " + out.name);
    FitOne("id: " + IntText(out.id));
    assert AllFit([]);
  }

  lemma FitOne(line: string)
    ensures AllFit([line]) <==> Fits(line)
  {
    hide Fits;
    assert [line][0] == line;
  }

  lemma FitBoth(a: seq<string>, b: seq<string>)
    ensures AllFit(a + b) <==> AllFit(a) && AllFit(b)
  {
    hide Fits;
    var all := a + b;
    assert forall k :: 0 <= k < |a| ==> a[k] == all[k];
    assert forall k :: 0 <= k < |b| ==> b[k] == all[|a| + k];
    assert forall k :: 0 <= k < |all| ==> all[k] == if k < |a| then a[k] else b[k - |a|];
  }

  lemma FrameText(out: Outgoing, rest: string)
    ensures var named := "event: " + out.name + "\n" + (DataText(DataLines(out)) + ("\n" + rest));
            ItemText(Frame(out)) + rest == if out.ephemeral then named else "id: " + IntText(out.id) + "\n" + named
  {
    hide DataText, DataLines, IntText;
  }

  /** One item is read as it should be, and then the rest. */
  lemma ReadItem(item: Item, rest: string)
    requires Sendable(item)
    ensures Read(ItemText(item) + rest)
         == if !AllFit(HeadLines(item)) then Report([], false)
            else if item.Heartbeat? then Read(rest)
            else if item.out.name == RESET then Report([], true)
            else Before([Delivery(SentId(item.out), item.out.name, Unified(item.out.data))], Read(rest))
  {
    hide Scanned, WithLine, ReadLines, Fits, AllFit, HeadLines, DataText, DataLines, Unified, IntText, ItemText, Fields, ParseAnyway;
    match item
    case Heartbeat => BeatRead(rest);
    case Frame(out) =>
      HeadFits(out);
      FrameText(out, rest);
      var named := "event: " + out.name + "\n" + (DataText(DataLines(out)) + ("\n" + rest));
      if out.ephemeral {
        ReadNamed(out, rest, FRESH);
      } else {
        var line := "id: " + IntText(out.id);
        IdRead(out.id);
        IdLine(out.id, line);
        assert "id" + ": " + IntText(out.id) == line;
        FieldRead("id", IntText(out.id), FRESH);
        ReadField(line, named, FRESH);
        assert WithLine(FRESH, line) == FRESH.(at := SentId(out));
        ReadNamed(out, rest, FRESH.(at := SentId(out)));
      }
  }

  lemma IdLine(id: int, line: string)
    requires line == "id: " + IntText(id) && '\n' !in IntText(id) && '\r' !in IntText(id)
    ensures '\n' !in line && '\r' !in line && line != ""
  {
    hide IntText;
    forall k | 0 <= k < |line| ensures line[k] != '\n' && line[k] != '\r' {
      if k >= 4 {
        assert line[k] == IntText(id)[k - 4];
      }
    }
  }

  lemma BeatRead(rest: string)
    ensures Read(ItemText(Heartbeat) + rest) == Read(rest) && AllFit(HeadLines(Heartbeat))
  {
    hide Scanned, ReadLines, ParseAnyway;
    var line := ": heartbeat";
    assert ItemText(Heartbeat) + rest == line + "\n" + ("\n" + rest);
    ReadField(line, "\n" + rest, FRESH);
    assert "" + ": " + "heartbeat" == line;
    FieldRead("", "heartbeat", FRESH);
    ReadBlank(rest, FRESH);
    BeforeNone(ReadLines(Scanned(rest), FRESH));
  }

  // ----- a connection that ends anywhere -----

  /** No line of the text is blank. */
  predicate NoBlank(s: string) {
    && (forall k :: 0 <= k < |s| ==> s[k] != '\r')
    && (forall k :: 0 <= k < |s| && s[k] == '\n' ==> k > 0 && s[k - 1] != '\n')
  }

  lemma FirstLine(s: string)
    requires NoBlank(s) && s != ""
    ensures var n := ChatGrammar.Find(s, '\n', 0);
            s[..n] != "" && DropCr(s[..n]) == s[..n] && (n < |s| ==> NoBlank(s[n + 1..]))
  {
    var n := ChatGrammar.Find(s, '\n', 0);
    assert s[..n] != "" ==> s[..n][n - 1] == s[n - 1];
    if n < |s| {
      var rest := s[n + 1..];
      assert forall k :: 0 <= k < |rest| ==> rest[k] == s[n + 1 + k];
    }
  }

  /** Without a blank line nothing is completed. */
  lemma {:induction false} NothingCompleted(s: string, r: Reader)
    requires NoBlank(s)
    ensures ReadLines(Scanned(s), r) == Report([], false)
    decreases |s|
  {
    hide WithLine, NoBlank, DropCr;
    if s != "" {
      FirstLine(s);
      var n := ChatGrammar.Find(s, '\n', 0);
      var line := s[..n];
      if n < LINE_LIMIT {
        var more := if n == |s| then [] else Scanned(s[n + 1..]);
        assert Scanned(s) == [line] + more;
        assert ([line] + more)[1..] == more;
        if n < |s| {
          NothingCompleted(s[n + 1..], WithLine(r, line));
        }
      }
    }
  }

  lemma NoBlankLine(line: string, rest: string)
    requires line != "" && '\n' !in line && '\r' !in line && NoBlank(rest)
    ensures NoBlank(line + "\n" + rest)
  {
    var s := line + "\n" + rest;
    forall k | 0 <= k < |s| ensures s[k] != '\r' && (s[k] == '\n' ==> k > 0 && s[k - 1] != '\n') {
      if k < |line| {
        assert s[k] == line[k] && line[k] in line;
      } else if k == |line| {
        assert s[k - 1] == line[|line| - 1] && line[|line| - 1] in line;
      } else {
        assert s[k] == rest[k - |line| - 1];
        assert k > |line| + 1 ==> s[k - 1] == rest[k - |line| - 2];
      }
    }
  }

  lemma {:induction false} NoBlankData(lines: seq<string>)
    requires forall k :: 0 <= k < |lines| ==> '\n' !in lines[k] && '\r' !in lines[k]
    ensures NoBlank(DataText(lines))
  {
    hide NoBlank;
    if lines == [] {
      assert NoBlank("") by { NoBlankEmpty(); }
    } else {
      NoBlankData(lines[1..]);
      NoBlankLine("data: " + lines[0], DataText(lines[1..]));
    }
  }

  lemma NoBlankEmpty()
    ensures NoBlank("")
  {
  }

  lemma HeadNoBlank(item: Item)
    requires Sendable(item)
    ensures NoBlank(Head(item))
  {
    hide NoBlank, DataText, DataLines, IntText;
    match item
    case Heartbeat =>
      NoBlankEmpty();
      NoBlankLine(": heartbeat", "");
      assert ": heartbeat" + "\n" + "" == Head(item);
    case Frame(out) =>
      DataFacts(out);
      NoBlankData(DataLines(out));
      NoBlankLine("event: " + out.name, DataText(DataLines(out)));
      var named := "event: " + out.name + "\n" + DataText(DataLines(out));
      if !out.ephemeral {
        IdRead(out.id);
        IdLine(out.id, "id: " + IntText(out.id));
        NoBlankLine("id: " + IntText(out.id), named);
        assert Head(item) == "id: " + IntText(out.id) + "\n" + named;
      } else {
        assert Head(item) == named;
      }
  }

  /** An item cut before its end completes nothing. */
  lemma CutItem(item: Item, n: nat)
    requires Sendable(item) && n < |ItemText(item)|
    ensures Read(ItemText(item)[..n]) == Report([], false)
  {
    hide Scanned, ReadLines, Head;
    HeadNoBlank(item);
    var cut := ItemText(item)[..n];
    assert cut == Head(item)[..n];
    assert forall k :: 0 <= k < n ==> cut[k] == Head(item)[k];
    NothingCompleted(cut, FRESH);
  }

  /** Whatever is sent and wherever the connection ends, the reader gets exactly
      the whole items in order, up to the first reset or line it has no room
      for: each identifier, name and data with unified line ends; heartbeats
      and a cut item give nothing. */
  lemma {:induction false} CutRoundTrip(items: seq<Item>, n: nat)
    requires forall i :: 0 <= i < |items| ==> Sendable(items[i])
    requires n <= |Wire(items)|
    ensures Read(Wire(items)[..n]) == Expected(items[..Whole(items, n)])
  {
    hide ItemText, HeadLines, AllFit, Read, Unified;
    if items == [] {
      NothingRead();
    } else {
      var text, rest := ItemText(items[0]), Wire(items[1..]);
      if n < |text| {
        assert Wire(items)[..n] == text[..n];
        CutItem(items[0], n);
      } else {
        var m := n - |text|;
        assert Wire(items)[..n] == text + rest[..m];
        ReadItem(items[0], rest[..m]);
        CutRoundTrip(items[1..], m);
        var k := Whole(items[1..], m);
        assert items[..k + 1][0] == items[0] && items[..k + 1][1..] == items[1..][..k];
      }
    }
  }

  lemma NothingRead()
    ensures Read("") == Report([], false)
  {
  }

  /** A connection that ended well gives everything sent. */
  lemma RoundTrip(items: seq<Item>)
    requires forall i :: 0 <= i < |items| ==> Sendable(items[i])
    ensures Read(Wire(items)) == Expected(items)
  {
    hide Read, Expected, Wire, Whole;
    CutRoundTrip(items, |Wire(items)|);
    WholeAll(items);
    assert Wire(items)[..|Wire(items)|] == Wire(items) && items[..|items|] == items;
  }

  lemma {:induction false} WholeAll(items: seq<Item>)
    ensures Whole(items, |Wire(items)|) == |items|
  {
    hide ItemText;
    if items != [] {
      WholeAll(items[1..]);
    }
  }

  /** What arrived from a sender that stopped in the middle of a write reads as
      everything it had sent, with the last item only if all of it arrived. */
  lemma EndedRoundTrip(sent: seq<Item>, item: Item, n: nat)
    requires (forall i :: 0 <= i < |sent| ==> Sendable(sent[i])) && Sendable(item) && n <= |ItemText(item)|
    ensures Read(Wire(sent) + ItemText(item)[..n]) == Expected(if n == |ItemText(item)| then sent + [item] else sent)
  {
    hide Read, Expected, Wire, Whole, ItemText, Sendable;
    var items := sent + [item];
    WireMore(sent, item);
    var m := |Wire(sent)| + n;
    assert Wire(items)[..m] == Wire(sent) + ItemText(item)[..n];
    CutRoundTrip(items, m);
    WholePart(sent, item, n);
    assert items[..|sent|] == sent && items[..|items|] == items;
  }

  lemma {:induction false} WholePart(sent: seq<Item>, item: Item, n: nat)
    requires n <= |ItemText(item)|
    ensures Whole(sent + [item], |Wire(sent)| + n) == |sent| + if n == |ItemText(item)| then 1 else 0
  {
    hide ItemText;
    if sent == [] {
      assert sent + [item] == [item] && [item][1..] == [];
    } else {
      assert (sent + [item])[1..] == sent[1..] + [item];
      WholePart(sent[1..], item, n);
    }
  }
}
