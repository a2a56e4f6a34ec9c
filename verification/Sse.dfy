/**
 The server-sent event stream: what the relay writes, and the line loop with
 which a receiver reads it back.
 */
module Sse {
  import opened Base
  import opened Approvals

  const MAXIMUM_LINE := 0x10_0000
  const MAXIMUM_BODY := 0x400_0000

  datatype Event = Event(kind: string, payload: string)

  datatype Item = Send(event: Event) | Keepalive

  // --- writing ----------------------------------------------------------------------------

  function Frame(event: Event): string {
    "event: " + event.kind + "\n" + "data: " + event.payload + "\n" + "\n"
  }

  function Text(item: Item): string {
    match item
    case Send(event) => Frame(event)
    case Keepalive => ": keepalive" + "\n" + "\n"
  }

  function Written(items: seq<Item>): string {
    if items == [] then "" else Text(items[0]) + Written(items[1..])
  }

  function Events(items: seq<Item>): seq<Event> {
    if items == [] then []
    else (if items[0].Send? then [items[0].event] else []) + Events(items[1..])
  }

  lemma {:induction false} WrittenAppends(items: seq<Item>, item: Item)
    ensures Written(items + [item]) == Written(items) + Text(item)
  {
    if items == [] {
      assert items + [item] == [item];
      assert Written([item]) == Text(item) + Written([]);
    } else {
      assert (items + [item])[1..] == items[1..] + [item];
      WrittenAppends(items[1..], item);
      assert (Text(items[0]) + Written(items[1..])) + Text(item) == Text(items[0]) + (Written(items[1..]) + Text(item));
    }
  }

  lemma WrittenNothing()
    ensures Written([]) == ""
  {
  }

  lemma TextOfEvent(event: Event)
    ensures Text(Send(event)) == Frame(event)
  {
  }

  class EventWriter {
    var output: string

    constructor ()
      ensures output == ""
    {
      output := "";
    }

    method WriteSSE(event: Event)
      modifies this
      ensures output == old(output) + Frame(event)
    {
      output := output + ("event: " + event.kind + "\n" + "data: " + event.payload + "\n" + "\n");
    }

    method WriteKeepalive()
      modifies this
      ensures output == old(output) + Text(Keepalive)
    {
      output := output + (": keepalive" + "\n" + "\n");
    }

    /** The events loop: what arrives on the channel or from the ticker is written in turn. */
    method Stream(items: seq<Item>)
      modifies this
      ensures output == old(output) + Written(items)
    {
      hide Text, Written;
      var n := 0;
      WrittenNothing();
      assert items[..0] == [];
      while n < |items|
        invariant n <= |items| && output == old(output) + Written(items[..n])
      {
        match items[n] {
          case Send(event) =>
            WriteSSE(event);
            TextOfEvent(event);
          case Keepalive => WriteKeepalive();
        }
        assert items[..n + 1] == items[..n] + [items[n]];
        WrittenAppends(items[..n], items[n]);
        assert output == (old(output) + Written(items[..n])) + Text(items[n]);
        n := n + 1;
      }
      assert items[..n] == items;
    }
  }

  // --- reading ------------------------------------------------------------------------------

  /** What the loop has gathered: the fields of the event being read, the events handed on, and whether a line was too long. */
  datatype Reader = Reader(kind: string, data: string, events: seq<Event>, failed: bool)

  const Begun := Reader("", "", [], false)

  function Flushed(r: Reader): Reader {
    if r.data == "" then r.(kind := "")
    else r.(kind := "", data := "", events := r.events + [Event(if r.kind == "" then "message" else r.kind, r.data)])
  }

  predicate HasPrefix(line: string, prefix: string) {
    |prefix| <= |line| && line[..|prefix|] == prefix
  }

  function OnLine(r: Reader, line: string): Reader {
    if line == "" then Flushed(r)
    else if HasPrefix(line, ":") then r
    else if HasPrefix(line, "event:") then r.(kind := TrimSpace(line[6..]))
    else if HasPrefix(line, "data:") then r.(data := (if r.data != "" then r.data + "\n" else "") + TrimSpace(line[5..]))
    else r
  }

  /** Where the first line of a text ends. */
  function Break(text: string): (n: nat)
    ensures n <= |text|
    ensures n < |text| ==> text[n] == '\n'
    ensures forall i | 0 <= i < n :: text[i] != '\n'
  {
    if text == "" || text[0] == '\n' then 0 else 1 + Break(text[1..])
  }

  function DropReturn(line: string): string {
    if line != "" && line[|line| - 1] == '\r' then line[..|line| - 1] else line
  }

  /** The scanner's lines, fed to the loop one by one; a last line without an end counts too. */
  function Read(r: Reader, text: string): Reader
    decreases |text|
  {
    if text == "" then r
    else
      var n := Break(text);
      if n >= MAXIMUM_LINE then r.(failed := true)
      else
        var next := OnLine(r, DropReturn(text[..n]));
        if n == |text| then next else Read(next, text[n + 1..])
  }

  function Limited(body: string): string {
    if |body| <= MAXIMUM_BODY then body else body[..MAXIMUM_BODY]
  }

  /** How the response body stops: at its end, or with a read error as after a dropped connection. */
  datatype End = Complete | Broken

  /** The limit on the body is reported as an ordinary end, before any error behind it is seen. */
  predicate EndsClean(body: string, end: End) {
    end == Complete || |body| >= MAXIMUM_BODY
  }

  /** Everything handed to the event handler; only a clean end is followed by a last flush. */
  function Received(body: string, end: End): seq<Event> {
    var last := Read(Begun, Limited(body));
    if last.failed || !EndsClean(body, end) then last.events else Flushed(last).events
  }

  method StreamEvents(body: string, end: End) returns (events: seq<Event>, ok: bool)
    ensures events == Received(body, end)
    ensures ok <==> !Read(Begun, Limited(body)).failed && EndsClean(body, end)
  {
    hide TrimSpace, Read, Break, Flushed, OnLine;
    var input := Limited(body);
    var eventType, data := "", "";
    events := [];
    var at := 0;
    while at < |input|
      invariant at <= |input|
      invariant Read(Reader(eventType, data, events, false), input[at..]) == Read(Begun, input)
    {
      var stop := at;
      while stop < |input| && input[stop] != '\n'
        invariant at <= stop <= |input|
        invariant forall i | at <= i < stop :: input[i] != '\n'
      {
        stop := stop + 1;
      }
      ghost var before := Reader(eventType, data, events, false);
      ReadStep(before, input, at, stop);
      if stop - at >= MAXIMUM_LINE {
        return events, false;
      }
      var line := DropReturn(input[at..stop]);
      OnLineIs(before, line);
      if line == "" {
        if data != "" {
          events := events + [Event(if eventType == "" then "message" else eventType, data)];
        }
        eventType, data := "", "";
      } else if HasPrefix(line, ":") {
      } else if HasPrefix(line, "event:") {
        eventType := TrimSpace(line[6..]);
      } else if HasPrefix(line, "data:") {
        if data != "" {
          data := data + "\n";
        }
        data := data + TrimSpace(line[5..]);
      }
      assert Reader(eventType, data, events, false) == OnLine(before, line);
      at := if stop < |input| then stop + 1 else stop;
    }
    assert input[at..] == "";
    ReadNothing(Reader(eventType, data, events, false));
    if end == Broken && |body| < MAXIMUM_BODY {
      return events, false;
    }
    FlushedIs(Reader(eventType, data, events, false));
    if data != "" {
      events := events + [Event(if eventType == "" then "message" else eventType, data)];
    }
    ok := true;
  }

  lemma ReadNothing(r: Reader)
    ensures Read(r, "") == r
  {
  }

  lemma FlushedIs(r: Reader)
    ensures Flushed(r).events == if r.data == "" then r.events else r.events + [Event(if r.kind == "" then "message" else r.kind, r.data)]
  {
  }

  /** The loop's branches, as the method takes them. */
  lemma OnLineIs(r: Reader, line: string)
    ensures OnLine(r, line) ==
            if line == "" then
              (if r.data == "" then r.(kind := "")
               else Reader("", "", r.events + [Event(if r.kind == "" then "message" else r.kind, r.data)], r.failed))
            else if HasPrefix(line, ":") then r
            else if HasPrefix(line, "event:") then r.(kind := TrimSpace(line[6..]))
            else if HasPrefix(line, "data:") then r.(data := (if r.data != "" then r.data + "\n" else r.data) + TrimSpace(line[5..]))
            else r
  {
  }

  /** One line of the input, found by looking for its end. */
  lemma ReadStep(r: Reader, input: string, at: nat, end: nat)
    requires at < |input| && at <= end <= |input| && (end < |input| ==> input[end] == '\n')
    requires forall i | at <= i < end :: input[i] != '\n'
    ensures Read(r, input[at..]) ==
            if end - at >= MAXIMUM_LINE then r.(failed := true)
            else Read(OnLine(r, DropReturn(input[at..end])), input[if end < |input| then end + 1 else end..])
  {
    hide OnLine, DropReturn;
    BreakIs(input[at..], end - at);
    assert input[at..][..end - at] == input[at..end];
    if end < |input| {
      assert input[at..][end - at + 1..] == input[end + 1..];
    } else {
      assert input[end..] == "";
    }
  }

  lemma {:induction false} BreakIs(text: string, n: nat)
    requires n <= |text| && (n < |text| ==> text[n] == '\n') && (forall i | 0 <= i < n :: text[i] != '\n')
    ensures Break(text) == n
  {
  }

  // --- the round trip ---------------------------------------------------------------------------

  /** A field that survives a line of its own. */
  predicate Clean(value: string) {
    value != "" && TrimSpace(value) == value && '\n' !in value
  }

  predicate Fits(item: Item) {
    item.Send? ==> Clean(item.event.kind) && Clean(item.event.payload) && |item.event.kind| + 7 < MAXIMUM_LINE && |item.event.payload| + 6 < MAXIMUM_LINE
  }

  lemma LineIsRead(r: Reader, line: string, rest: string)
    requires '\n' !in line && |line| < MAXIMUM_LINE
    ensures Read(r, line + "\n" + rest) == Read(OnLine(r, DropReturn(line)), rest)
  {
    var text := line + "\n" + rest;
    forall i | 0 <= i < |line| ensures text[i] != '\n' {
      assert text[i] == line[i] && line[i] in line;
    }
    BreakIs(text, |line|);
    assert text[..|line|] == line && text[|line| + 1..] == rest;
  }

  lemma TrimmedField(value: string)
    ensures TrimSpace(" " + value) == TrimSpace(value)
  {
  }

  lemma CleanKeepsReturn(prefix: string, value: string)
    requires Clean(value)
    ensures DropReturn(prefix + value) == prefix + value
  {
    TrimLeftStops(value);
    TrimRightStops(TrimLeft(value));
    assert !IsSpace(value[|value| - 1]);
    assert (prefix + value)[|prefix + value| - 1] == value[|value| - 1];
  }

  lemma KindIsRead(r: Reader, kind: string)
    requires Clean(kind)
    ensures OnLine(r, DropReturn("event: " + kind)) == r.(kind := kind)
  {
    var line := "event: " + kind;
    CleanKeepsReturn("event: ", kind);
    assert line[..6] == "event:" && line[6..] == " " + kind && line[0] == 'e';
    TrimmedField(kind);
  }

  lemma DataIsRead(r: Reader, payload: string)
    requires Clean(payload) && r.data == ""
    ensures OnLine(r, DropReturn("data: " + payload)) == r.(data := payload)
  {
    var line := "data: " + payload;
    CleanKeepsReturn("data: ", payload);
    assert line[..5] == "data:" && line[5..] == " " + payload && line[0] == 'd';
    TrimmedField(payload);
  }

  /** Between two events the reader holds nothing; one written item takes it to the next such point. */
  lemma ItemIsRead(events: seq<Event>, item: Item, rest: string)
    requires Fits(item)
    ensures Read(Reader("", "", events, false), Text(item) + rest) ==
            Read(Reader("", "", if item.Send? then events + [item.event] else events, false), rest)
  {
    var r := Reader("", "", events, false);
    match item
    case Send(event) =>
      var first, second := "event: " + event.kind, "data: " + event.payload;
      assert Text(item) + rest == first + "\n" + (second + "\n" + ("" + "\n" + rest));
      LineIsRead(r, first, second + "\n" + ("" + "\n" + rest));
      KindIsRead(r, event.kind);
      LineIsRead(r.(kind := event.kind), second, "" + "\n" + rest);
      DataIsRead(r.(kind := event.kind), event.payload);
      LineIsRead(r.(kind := event.kind, data := event.payload), "", rest);
    case Keepalive =>
      var line := ": keepalive";
      assert Text(item) + rest == line + "\n" + ("" + "\n" + rest);
      LineIsRead(r, line, "" + "\n" + rest);
      assert DropReturn(line) == line && line[..1] == ":";
      LineIsRead(r, "", rest);
  }

  /** Whatever follows it, a written stream is read as exactly its events, and reading goes on as from the beginning. */
  lemma {:induction false} StreamIsRead(events: seq<Event>, items: seq<Item>, rest: string)
    requires forall i | 0 <= i < |items| :: Fits(items[i])
    ensures Read(Reader("", "", events, false), Written(items) + rest) == Read(Reader("", "", events + Events(items), false), rest)
    decreases |items|
  {
    hide Text, Read, Fits;
    if items == [] {
      assert Written(items) + rest == rest && events + Events(items) == events;
    } else {
      forall i | 0 <= i < |items[1..]| ensures Fits(items[1..][i]) {
        assert items[1..][i] == items[i + 1];
      }
      assert Written(items) + rest == Text(items[0]) + (Written(items[1..]) + rest);
      ItemIsRead(events, items[0], Written(items[1..]) + rest);
      var next := if items[0].Send? then events + [items[0].event] else events;
      StreamIsRead(next, items[1..], rest);
      assert next + Events(items[1..]) == events + Events(items);
    }
  }

  /** The loop recovers exactly the events that were written, however they are mixed with keepalives and however the body ends. */
  lemma RoundTrip(items: seq<Item>, end: End)
    requires forall i | 0 <= i < |items| :: Fits(items[i])
    requires |Written(items)| <= MAXIMUM_BODY
    ensures Received(Written(items), end) == Events(items)
    ensures !Read(Begun, Limited(Written(items))).failed
  {
    assert Written(items) + "" == Written(items);
    StreamIsRead([], items, "");
    assert [] + Events(items) == Events(items);
    hide Read, Written;
    ReadNothing(Reader("", "", Events(items), false));
    FlushedIs(Reader("", "", Events(items), false));
  }

  // --- streams that are cut -----------------------------------------------------------------------

  /** The length of a frame up to its payload. */
  function Header(event: Event): nat {
    |event.kind| + 14
  }

  /** The events whose frames lie wholly before position `n`. */
  function CompleteBefore(items: seq<Item>, n: nat): seq<Event> {
    if items == [] || n < |Text(items[0])| then []
    else (if items[0].Send? then [items[0].event] else []) + CompleteBefore(items[1..], n - |Text(items[0])|)
  }

  /** Position `n` is behind the first character of an event's payload, and its frame is not complete. */
  predicate CutsData(items: seq<Item>, n: nat) {
    if items == [] then false
    else if n < |Text(items[0])| then items[0].Send? && n > Header(items[0].event)
    else CutsData(items[1..], n - |Text(items[0])|)
  }

  /** A last line without an end, fed to the loop. */
  lemma LastLineIsRead(r: Reader, line: string)
    requires '\n' !in line && |line| < MAXIMUM_LINE
    ensures Read(r, line) == if line == "" then r else OnLine(r, DropReturn(line))
  {
    BreakIs(line, |line|);
    assert line[..|line|] == line;
  }

  lemma {:induction false} StartsWithVisible(value: string)
    requires value != "" && !IsSpace(value[0])
    ensures TrimRight(value) != "" && TrimSpace(value) != ""
  {
    if |value| > 1 {
      StartsWithVisible(value[..|value| - 1]);
    }
  }

  /** What a prefix of a data line leaves: data exactly when it reaches into the payload. */
  lemma PartialData(r: Reader, payload: string, j: nat)
    requires r.data == "" && Clean(payload) && |payload| + 6 < MAXIMUM_LINE && j <= |payload| + 6
    ensures var next := Read(r, ("data: " + payload)[..j]);
            next.events == r.events && next.failed == r.failed && (next.data != "" <==> j > 6)
  {
    hide OnLine, TrimSpace, Read, IsSpace;
    var line := ("data: " + payload)[..j];
    forall i | 0 <= i < j ensures line[i] != '\n' {
      assert i >= 6 ==> line[i] == payload[i - 6] && payload[i - 6] in payload;
    }
    LastLineIsRead(r, line);
    if j > 6 {
      CleanStarts(payload);
      assert line == "data: " + payload[..j - 6];
      DataLine(r, payload[..j - 6]);
    } else if j > 0 {
      assert line == "data: "[..j];
      EmptyDataLine(r, j);
    }
  }

  lemma CleanStarts(value: string)
    requires Clean(value)
    ensures !IsSpace(value[0])
  {
    TrimLeftStops(value);
    TrimRightStops(TrimLeft(value));
  }

  lemma DataLine(r: Reader, part: string)
    requires r.data == "" && part != "" && !IsSpace(part[0])
    ensures var next := OnLine(r, DropReturn("data: " + part));
            next.events == r.events && next.failed == r.failed && next.data != ""
  {
    var kept := DropReturn("data: " + part);
    var rest := if part[|part| - 1] == '\r' then part[..|part| - 1] else part;
    assert part[0] != '\r';
    assert kept == "data: " + rest && rest != "" && rest[0] == part[0];
    assert kept[..5] == "data:" && kept[0] == 'd' && kept[5..] == " " + rest;
    TrimmedField(rest);
    StartsWithVisible(rest);
    hide TrimSpace;
  }

  lemma EmptyDataLine(r: Reader, j: nat)
    requires r.data == "" && 0 < j <= 6
    ensures var next := OnLine(r, DropReturn("data: "[..j]));
            next.events == r.events && next.failed == r.failed && next.data == ""
  {
    var line := "data: "[..j];
    assert DropReturn(line) == line && line[0] == 'd';
    assert j >= 5 ==> line[5..] == "" || line[5..] == " ";
    assert TrimSpace("") == "" && TrimSpace(" ") == "";
    hide TrimSpace;
  }

  lemma PartialKind(r: Reader, kind: string, j: nat)
    requires r.data == "" && Clean(kind) && |kind| + 7 < MAXIMUM_LINE && j <= |kind| + 7
    ensures var next := Read(r, ("event: " + kind)[..j]);
            next.events == r.events && next.failed == r.failed && next.data == ""
  {
    var line := ("event: " + kind)[..j];
    forall i | 0 <= i < j ensures line[i] != '\n' {
      assert i >= 7 ==> line[i] == kind[i - 7] && kind[i - 7] in kind;
    }
    LastLineIsRead(r, line);
    if j > 0 {
      assert line[0] == 'e';
      assert DropReturn(line) != "" ==> DropReturn(line)[0] == 'e';
    }
    hide TrimSpace, Read;
  }

  /** The reader inside one frame: no event yet, and data exactly when the cut is behind the first payload character. */
  lemma PartialItem(events: seq<Event>, item: Item, n: nat)
    requires Fits(item) && n < |Text(item)|
    ensures var next := Read(Reader("", "", events, false), Text(item)[..n]);
            next.events == events && !next.failed && (next.data != "" <==> item.Send? && n > Header(item.event))
  {
    var r := Reader("", "", events, false);
    match item
    case Send(event) => PartialFrame(r, event, n);
    case Keepalive => PartialKeepalive(r, n);
  }

  lemma PartialKeepalive(r: Reader, n: nat)
    requires n < |Text(Keepalive)|
    ensures Read(r, Text(Keepalive)[..n]) == r
  {
    var line := ": keepalive";
    if n <= |line| {
      assert Text(Keepalive)[..n] == line[..n];
      LastLineIsRead(r, line[..n]);
      assert n > 0 ==> DropReturn(line[..n]) == line[..n] && line[..n][..1] == ":";
    } else {
      assert Text(Keepalive)[..n] == line + "\n" + "";
      LineIsRead(r, line, "");
      assert DropReturn(line) == line && line[..1] == ":";
    }
  }

  lemma PartialFrame(r: Reader, event: Event, n: nat)
    requires Fits(Send(event)) && n < |Frame(event)| && r.kind == "" && r.data == "" && !r.failed
    ensures var next := Read(r, Frame(event)[..n]);
            next.events == r.events && !next.failed && (next.data != "" <==> n > Header(event))
  {
    hide OnLine, TrimSpace, Read;
    var first, second := "event: " + event.kind, "data: " + event.payload;
    assert Frame(event) == first + "\n" + second + "\n" + "\n";
    if n <= |first| {
      assert Frame(event)[..n] == first[..n];
      PartialKind(r, event.kind, n);
    } else {
      var j := n - |first| - 1;
      KindIsRead(r, event.kind);
      var named := r.(kind := event.kind);
      if j <= |second| {
        assert Frame(event)[..n] == first + "\n" + second[..j];
        LineIsRead(r, first, second[..j]);
        PartialData(named, event.payload, j);
      } else {
        assert Frame(event)[..n] == first + "\n" + (second + "\n" + "");
        LineIsRead(r, first, second + "\n" + "");
        LineIsRead(named, second, "");
        DataIsRead(named, event.payload);
        ReadNothing(named.(data := event.payload));
        NotEmpty(event.payload);
      }
    }
  }

  /** A cut stream is read as its complete events, with data left over exactly when the cut is inside an event's data. */
  lemma {:induction false} CutIsRead(events: seq<Event>, items: seq<Item>, n: nat)
    requires (forall i | 0 <= i < |items| :: Fits(items[i])) && n <= |Written(items)|
    ensures var last := Read(Reader("", "", events, false), Written(items)[..n]);
            last.events == events + CompleteBefore(items, n) && !last.failed && (last.data != "" <==> CutsData(items, n))
    decreases |items|
  {
    hide Text, Read, Fits;
    if items == [] {
      assert Written(items)[..n] == "";
      ReadNothing(Reader("", "", events, false));
    } else {
      var text := Text(items[0]);
      forall i | 0 <= i < |items[1..]| ensures Fits(items[1..][i]) {
        assert items[1..][i] == items[i + 1];
      }
      assert Written(items) == text + Written(items[1..]);
      if n < |text| {
        assert Written(items)[..n] == text[..n];
        PartialItem(events, items[0], n);
      } else {
        var m := n - |text|;
        assert Written(items)[..n] == text + Written(items[1..])[..m];
        ItemIsRead(events, items[0], Written(items[1..])[..m]);
        var next := if items[0].Send? then events + [items[0].event] else events;
        CutIsRead(next, items[1..], m);
        assert next + CompleteBefore(items[1..], m) == events + CompleteBefore(items, n);
      }
    }
  }

  /**
   Which cuts are harmless. A stream cut anywhere, or at the limit on the body,
   hands on exactly the events that were complete before the cut if and only if
   the body broke off with an error below that limit, or the cut is not inside
   an event's data. Otherwise a cut event is handed on, where section 9.2.6 of
   the WHATWG HTML Standard has an incomplete event discarded.
   */
  lemma HarmlessCuts(items: seq<Item>, n: nat, end: End)
    requires (forall i | 0 <= i < |items| :: Fits(items[i])) && n <= |Written(items)|
    ensures var cut := if n <= MAXIMUM_BODY then n else MAXIMUM_BODY;
            Received(Written(items)[..n], end) == CompleteBefore(items, cut) <==>
            (end == Broken && n < MAXIMUM_BODY) || !CutsData(items, cut)
  {
    hide Read, Written, CutsData, CompleteBefore;
    var cut := if n <= MAXIMUM_BODY then n else MAXIMUM_BODY;
    var body := Written(items)[..n];
    assert Limited(body) == Written(items)[..cut];
    CutIsRead([], items, cut);
    var last := Read(Begun, Limited(body));
    assert [] + CompleteBefore(items, cut) == CompleteBefore(items, cut);
    FlushedIs(last);
  }

  /** Inside the data of an event, a clean end hands on that event with the part of its data that arrived. */
  lemma CutEventIsHandedOn(items: seq<Item>, event: Event, k: nat)
    requires forall i | 0 <= i < |items| :: Fits(items[i])
    requires Fits(Send(event)) && 0 < k < |event.payload| && Clean(event.payload[..k])
    requires var body := Written(items) + ("event: " + event.kind + "\n" + ("data: " + event.payload[..k])); |body| <= MAXIMUM_BODY
    ensures var body := Written(items) + ("event: " + event.kind + "\n" + ("data: " + event.payload[..k]));
            Received(body, Complete) == Events(items) + [Event(event.kind, event.payload[..k])]
  {
    hide Read, Flushed, Clean, Text;
    var part := event.payload[..k];
    StreamIsRead([], items, "event: " + event.kind + "\n" + ("data: " + part));
    assert [] + Events(items) == Events(items);
    CutTailIsRead(Events(items), event.kind, part);
    FlushedIs(Reader(event.kind, part, Events(items), false));
    NotEmpty(event.kind);
    NotEmpty(part);
  }

  lemma CutTailIsRead(events: seq<Event>, kind: string, part: string)
    requires Clean(kind) && Clean(part) && |kind| + 7 < MAXIMUM_LINE && |part| + 6 < MAXIMUM_LINE
    ensures Read(Reader("", "", events, false), "event: " + kind + "\n" + ("data: " + part)) == Reader(kind, part, events, false)
  {
    var r := Reader("", "", events, false);
    var last := "data: " + part;
    LineIsRead(r, "event: " + kind, last);
    KindIsRead(r, kind);
    forall i | 0 <= i < |last| ensures last[i] != '\n' {
      assert i >= 6 ==> last[i] == part[i - 6] && part[i - 6] in part;
    }
    BreakIs(last, |last|);
    assert last[..|last|] == last;
    DataIsRead(r.(kind := kind), part);
    hide OnLine, TrimSpace;
  }

  lemma NotEmpty(value: string)
    requires Clean(value)
    ensures value != ""
  {
  }

  // --- a stream longer than the limit -----------------------------------------------------------------

  function Copies(event: Event, count: nat): seq<Item> {
    if count == 0 then [] else [Send(event)] + Copies(event, count - 1)
  }

  lemma {:induction false} CopiesFacts(event: Event, count: nat, size: nat)
    requires Fits(Send(event)) && |Frame(event)| == size
    ensures |Written(Copies(event, count))| == count * size
    ensures |Copies(event, count)| == count && forall i | 0 <= i < count :: Fits(Copies(event, count)[i])
  {
    if count > 0 {
      CopiesFacts(event, count - 1, size);
      assert Copies(event, count)[1..] == Copies(event, count - 1);
      assert count * size == size + (count - 1) * size;
    }
  }

  lemma {:induction false} CopiesCut(event: Event, count: nat, size: nat, whole: nat, rest: nat)
    requires |Frame(event)| == size && whole < count && rest < size
    ensures CutsData(Copies(event, count), whole * size + rest) <==> rest > Header(event)
    decreases count
  {
    assert Copies(event, count)[1..] == Copies(event, count - 1) && Copies(event, count)[0] == Send(event);
    if whole > 0 {
      CopiesCut(event, count - 1, size, whole - 1, rest);
      assert whole * size == size + (whole - 1) * size;
      assert whole * size + rest - size == (whole - 1) * size + rest;
    }
  }

  lemma PlainIsClean(count: nat)
    requires count > 0
    ensures Clean(seq(count, _ => 'x'))
  {
    var value := seq(count, _ => 'x');
    assert !IsSpace(value[0]) && !IsSpace(value[count - 1]);
  }

  /** A long stream of well-formed events ends in a truncated one at the limit, even if the connection then breaks. */
  lemma LimitCutsAnEvent(end: End)
    ensures exists items: seq<Item> ::
              && (forall i | 0 <= i < |items| :: Fits(items[i]))
              && |Written(items)| > MAXIMUM_BODY
              && Received(Written(items), end) != CompleteBefore(items, MAXIMUM_BODY)
  {
    hide Clean, CutsData, CompleteBefore, Received, Written;
    PlainIsClean(1);
    PlainIsClean(999983);
    var event := Event(seq(1, _ => 'x'), seq(999983, _ => 'x'));
    var items := Copies(event, 68);
    CopiesFacts(event, 68, 1000000);
    CopiesCut(event, 68, 1000000, 67, 108864);
    HarmlessCuts(items, |Written(items)|, end);
    assert Written(items)[..|Written(items)|] == Written(items);
  }
}
