/** Progress events as text: the server's printer and the client's line reader. */
module Sse {
  datatype Item = Event(name: string, data: string) | KeepAlive

  datatype Parsed = Parsed(name: string, data: string)

  /** What a Python strip takes off, as far as ASCII goes; `extra` is the rest of Unicode. */
  predicate Space(c: char) { c == ' ' || ('\t' <= c <= '\r') || ('\U{1c}' <= c <= '\U{1f}') || WideSpace(c) }

  predicate WideSpace(c: char) {
    c == '\U{85}' || c == '\U{a0}' || c == '\U{1680}' || ('\U{2000}' <= c <= '\U{200a}') || c == '\U{2028}'
    || c == '\U{2029}' || c == '\U{202f}' || c == '\U{205f}' || c == '\U{3000}'
  }

  function LStrip(s: string): string {
    if s != "" && Space(s[0]) then LStrip(s[1..]) else s
  }

  function RStrip(s: string): string {
    if s != "" && Space(s[|s| - 1]) then RStrip(s[..|s| - 1]) else s
  }

  function Strip(s: string): string { RStrip(LStrip(s)) }

  /** rstrip("\r\n") */
  function Chomp(s: string): string {
    if s != "" && (s[|s| - 1] == '\r' || s[|s| - 1] == '\n') then Chomp(s[..|s| - 1]) else s
  }

  // ----- printer

  function Print(item: Item): string {
    match item
    case Event(name, data) => "event: " + name + "\n" + "data: " + data + "\n" + "\n"
    case KeepAlive => ": keep-alive" + "\n" + "\n"
  }

  function PrintAll(items: seq<Item>): string {
    if items == [] then "" else Print(items[0]) + PrintAll(items[1..])
  }

  function EventsOf(items: seq<Item>): seq<Parsed> {
    if items == [] then []
    else (if items[0].Event? then [Parsed(items[0].name, items[0].data)] else []) + EventsOf(items[1..])
  }

  // ----- reader

  function LineEnd(s: string): (n: nat)
    ensures n <= |s| && '\n' !in s[..n] && (n < |s| ==> s[n] == '\n')
  {
    if s == "" || s[0] == '\n' then 0
    else
      var n := LineEnd(s[1..]);
      assert s[..n + 1] == [s[0]] + s[1..][..n];
      n + 1
  }

  /** Lines with their terminators, the last one possibly without. */
  function Lines(s: string): seq<string>
    decreases |s|
  {
    if s == "" then []
    else
      var n := LineEnd(s);
      if n == |s| then [s] else [s[..n + 1]] + Lines(s[n + 1..])
  }

  function Join(parts: seq<string>): string {
    if parts == [] then "" else if |parts| == 1 then parts[0] else parts[0] + "\n" + Join(parts[1..])
  }

  datatype Reading = Reading(name: string, data: seq<string>, out: seq<Parsed>)

  const START: Reading := Reading("message", [], [])

  function Flush(r: Reading): seq<Parsed> {
    if r.data == [] then r.out else r.out + [Parsed(r.name, Join(r.data))]
  }

  predicate StartsWith(line: string, prefix: string) { prefix <= line }

  function OneLine(r: Reading, raw: string): Reading {
    var line := Chomp(raw);
    if line == "" then Reading("message", [], Flush(r))
    else if StartsWith(line, ":") then r
    else if StartsWith(line, "event:") then
      r.(name := if Strip(line[6..]) != "" then Strip(line[6..]) else "message")
    else if StartsWith(line, "data:") then r.(data := r.data + [LStrip(line[5..])])
    else r
  }

  function ReadLines(r: Reading, lines: seq<string>): Reading
    decreases |lines|
  {
    if lines == [] then r else ReadLines(OneLine(r, lines[0]), lines[1..])
  }

  function Parse(text: string): seq<Parsed> { Flush(ReadLines(START, Lines(text))) }

  /** The line loop. */
  method ReadSse(lines: seq<string>) returns (out: seq<Parsed>)
    ensures out == Flush(ReadLines(START, lines))
  {
    var name, data := "message", [];
    out := [];
    assert lines[0..] == lines;
    for i := 0 to |lines|
      invariant ReadLines(Reading(name, data, out), lines[i..]) == ReadLines(START, lines)
    {
      assert lines[i..][1..] == lines[i + 1..];
      var line := Chomp(lines[i]);
      if line == "" {
        if data != [] { out := out + [Parsed(name, Join(data))]; }
        name, data := "message", [];
      } else if StartsWith(line, ":") {
      } else if StartsWith(line, "event:") {
        name := Strip(line[6..]);
        if name == "" { name := "message"; }
      } else if StartsWith(line, "data:") {
        data := data + [LStrip(line[5..])];
      }
    }
    if data != [] { out := out + [Parsed(name, Join(data))]; }
  }

  lemma ChompKeeps(field: string, x: string)
    requires Chomp(x) == x && field != "" && field[|field| - 1] == ':'
    ensures Chomp(field + x) == field + x
  {
    if x != "" {
      Shorter(x[..|x| - 1]);
      assert (field + x)[|field + x| - 1] == x[|x| - 1];
    }
  }

  /** Fields may be empty: a data line adds a line even so, an event line without a name means
      "message". */
  lemma FieldLines(r: Reading, x: string)
    requires Chomp(x) == x
    ensures OneLine(r, "data:" + x) == r.(data := r.data + [LStrip(x)])
    ensures OneLine(r, "event:" + x) == r.(name := if Strip(x) == "" then "message" else Strip(x))
  {
    var d, e := "data:" + x, "event:" + x;
    ChompKeeps("data:", x);
    ChompKeeps("event:", x);
    hide Chomp, Strip, LStrip;
    assert d[5..] == x && e[6..] == x;
    assert d[0] == 'd' && e[0] == 'e';
  }

  /** A line that starts with a colon is a comment. */
  lemma CommentLine(r: Reading, x: string)
    requires Chomp(x) == x
    ensures OneLine(r, ":" + x) == r
  {
    ChompKeeps(":", x);
    hide Chomp;
  }

  // ----- inversion

  /** On one line, with nothing at its ends that the reader strips. */
  predicate Clean(item: Item) {
    item.Event? ==>
      && item.name != "" && Strip(item.name) == item.name && '\n' !in item.name
      && LStrip(item.data) == item.data && Chomp(item.data) == item.data && '\n' !in item.data
  }

  predicate AllClean(items: seq<Item>) { forall i :: 0 <= i < |items| ==> Clean(items[i]) }

  /** A list of lines as text. */
  function Unlines(lines: seq<string>): string {
    if lines == [] then "" else lines[0] + "\n" + Unlines(lines[1..])
  }

  function Terminated(lines: seq<string>): seq<string> {
    seq(|lines|, i requires 0 <= i < |lines| => lines[i] + "\n")
  }

  lemma {:induction false} LineEndAfter(line: string, rest: string)
    requires '\n' !in line && rest != "" && rest[0] == '\n'
    ensures LineEnd(line + rest) == |line|
  {
    if line == "" {
      assert line + rest == rest;
    } else {
      assert (line + rest)[1..] == line[1..] + rest;
      LineEndAfter(line[1..], rest);
    }
  }

  /** The data of an event with several data lines is those lines, a line break between two. */
  lemma {:induction false} JoinedLines(parts: seq<string>)
    requires parts != []
    ensures Join(parts) + "\n" == Unlines(parts)
  {
    if |parts| > 1 {
      JoinedLines(parts[1..]);
      assert Join(parts) + "\n" == parts[0] + "\n" + (Join(parts[1..]) + "\n");
    } else {
      assert Unlines(parts[1..]) == "";
    }
  }

  lemma {:induction false} LinesOfUnlines(lines: seq<string>)
    requires forall i :: 0 <= i < |lines| ==> '\n' !in lines[i]
    ensures Lines(Unlines(lines)) == Terminated(lines)
    decreases |lines|
  {
    if lines != [] {
      hide Lines;
      FirstLine(lines[0], Unlines(lines[1..]));
      LinesOfUnlines(lines[1..]);
      assert Terminated(lines) == [lines[0] + "\n"] + Terminated(lines[1..]);
    }
  }

  lemma FirstLine(line: string, rest: string)
    requires '\n' !in line
    ensures Lines(line + "\n" + rest) == [line + "\n"] + Lines(rest)
  {
    var s := line + "\n" + rest;
    assert s == line + ("\n" + rest);
    LineEndAfter(line, "\n" + rest);
    assert s[..|line| + 1] == line + "\n" && s[|line| + 1..] == rest;
  }

  lemma {:induction false} UnlinesAppend(a: seq<string>, b: seq<string>)
    ensures Unlines(a + b) == Unlines(a) + Unlines(b)
    decreases |a|
  {
    if a == [] {
      assert a + b == b;
    } else {
      assert (a + b)[1..] == a[1..] + b;
      UnlinesAppend(a[1..], b);
    }
  }

  lemma {:induction false} ReadAppend(r: Reading, a: seq<string>, b: seq<string>)
    ensures ReadLines(r, a + b) == ReadLines(ReadLines(r, a), b)
    decreases |a|
  {
    if a == [] {
      assert a + b == b;
    } else {
      assert (a + b)[1..] == a[1..] + b;
      ReadAppend(OneLine(r, a[0]), a[1..], b);
    }
  }

  /** The lines an item is printed on. */
  function LinesOf(item: Item): seq<string> {
    match item
    case Event(name, data) => ["event: " + name, "data: " + data, ""]
    case KeepAlive => [": keep-alive", ""]
  }

  function AllLines(items: seq<Item>): seq<string> {
    if items == [] then [] else LinesOf(items[0]) + AllLines(items[1..])
  }

  lemma PrintIsLines(item: Item)
    ensures Print(item) == Unlines(LinesOf(item))
  {
    var ls := LinesOf(item);
    assert Unlines([""]) == "" + "\n" + Unlines([""][1..]);
    if item.Event? {
      assert ls[1..][1..] == [""];
      assert Unlines(ls[1..]) == "data: " + item.data + "\n" + Unlines([""]);
      assert Unlines(ls) == "event: " + item.name + "\n" + Unlines(ls[1..]);
    } else {
      assert ls[1..] == [""];
    }
  }

  lemma {:induction false} PrintAllIsLines(items: seq<Item>)
    ensures PrintAll(items) == Unlines(AllLines(items))
    decreases |items|
  {
    if items != [] {
      PrintIsLines(items[0]);
      PrintAllIsLines(items[1..]);
      UnlinesAppend(LinesOf(items[0]), AllLines(items[1..]));
    }
  }

  lemma {:induction false} CleanLines(items: seq<Item>)
    requires AllClean(items)
    ensures forall i :: 0 <= i < |AllLines(items)| ==> '\n' !in AllLines(items)[i]
    decreases |items|
  {
    if items != [] {
      CleanLines(items[1..]);
      assert Clean(items[0]);
    }
  }

  lemma ChompBreak(s: string)
    ensures Chomp(s + "\n") == Chomp(s)
  {
    assert (s + "\n")[..|s|] == s;
  }

  lemma {:induction false} ChompAfter(front: string, s: string)
    requires front != "" && front[|front| - 1] != '\r' && front[|front| - 1] != '\n'
    ensures Chomp(front + s) == front + Chomp(s)
    decreases |s|
  {
    if s != "" && (s[|s| - 1] == '\r' || s[|s| - 1] == '\n') {
      assert (front + s)[..|front + s| - 1] == front + s[..|s| - 1];
      ChompAfter(front, s[..|s| - 1]);
    } else if s == "" {
      assert front + s == front;
    }
  }

  lemma LStripSpaced(s: string)
    ensures LStrip(" " + s) == LStrip(s)
  {
    assert (" " + s)[1..] == s;
  }

  lemma {:induction false} Shorter(s: string)
    ensures |LStrip(s)| <= |s| && |RStrip(s)| <= |s| && Chomp(s) <= s
    ensures |LStrip(s)| == |s| ==> LStrip(s) == s
    ensures RStrip(s) <= s && (RStrip(s) != "" ==> !Space(RStrip(s)[|RStrip(s)| - 1]))
    decreases |s|
  {
    if s != "" {
      Shorter(s[1..]);
      Shorter(s[..|s| - 1]);
    }
  }

  /** What the reader makes of an event name and of a payload. */
  function Heard(name: string): string {
    if Strip(Chomp(name)) != "" then Strip(Chomp(name)) else "message"
  }

  function Taken(data: string): string { LStrip(Chomp(data)) }

  /** Only clean parts are taken over unchanged. */
  lemma TakenOver(name: string, data: string)
    requires '\n' !in name && '\n' !in data
    ensures Heard(name) == name && Taken(data) == data <==> Clean(Event(name, data))
  {
    Shorter(name);
    Shorter(Chomp(name));
    Shorter(LStrip(Chomp(name)));
    Shorter(data);
    Shorter(Chomp(data));
    if Strip(name) == name && name != "" {
      Shorter(LStrip(name));
      assert !Space(name[|name| - 1]);
      assert Chomp(name) == name;
    }
    MessageStays();
  }

  lemma MessageStays()
    ensures Strip(Chomp("message")) == "message"
  {
    Unstripped("message");
  }

  lemma Unstripped(s: string)
    requires s != "" && !Space(s[0]) && !Space(s[|s| - 1])
    ensures LStrip(s) == s && Strip(s) == s && Chomp(s) == s
  {}

  lemma ReadEventLine(r: Reading, name: string)
    ensures OneLine(r, "event: " + name + "\n") == r.(name := Heard(name))
  {
    var line := "event: " + Chomp(name);
    ChompBreak("event: " + name);
    ChompAfter("event: ", name);
    assert line[6..] == " " + Chomp(name);
    LStripSpaced(Chomp(name));
    assert line[..6] == "event:";
    assert line[0] != ':';
  }

  lemma ReadDataLine(r: Reading, data: string)
    ensures OneLine(r, "data: " + data + "\n") == r.(data := r.data + [Taken(data)])
  {
    var line := "data: " + Chomp(data);
    ChompBreak("data: " + data);
    ChompAfter("data: ", data);
    assert line[5..] == " " + Chomp(data);
    LStripSpaced(Chomp(data));
    assert line[..5] == "data:";
    assert line[0] == 'd';
  }

  lemma ReadBlank(r: Reading)
    ensures OneLine(r, "\n") == Reading("message", [], Flush(r))
  {
    assert "\n"[..0] == "";
  }

  lemma ReadComment(r: Reading)
    ensures OneLine(r, ": keep-alive" + "\n") == r
  {
    ChompBreak(": keep-alive");
    assert ": keep-alive"[..1] == ":";
  }

  lemma ReadEvent(out: seq<Parsed>, name: string, data: string)
    ensures ReadLines(Reading("message", [], out), Terminated(LinesOf(Event(name, data))))
            == Reading("message", [], out + [Parsed(Heard(name), Taken(data))])
  {
    hide OneLine, Heard, Taken;
    var lines := Terminated(LinesOf(Event(name, data)));
    var r0 := Reading("message", [], out);
    var r1 := Reading(Heard(name), [], out);
    var r2 := Reading(Heard(name), [Taken(data)], out);
    ReadEventLine(r0, name);
    ReadDataLine(r1, data);
    ReadBlank(r2);
    assert r1.data + [Taken(data)] == [Taken(data)];
    assert lines == [lines[0], lines[1], lines[2]] && lines[2] == "\n";
    ReadThree(r0, lines[0], lines[1], lines[2]);
  }

  lemma ReadThree(r: Reading, a: string, b: string, c: string)
    ensures ReadLines(r, [a, b, c]) == OneLine(OneLine(OneLine(r, a), b), c)
  {
    hide OneLine;
    assert [a, b, c][1..] == [b, c] && [b, c][1..] == [c] && [c][1..] == [];
    var r1 := OneLine(r, a);
    var r2 := OneLine(r1, b);
    assert ReadLines(OneLine(r2, c), []) == OneLine(r2, c);
    assert ReadLines(r2, [c]) == OneLine(r2, c);
    assert ReadLines(r1, [b, c]) == ReadLines(r2, [c]);
  }

  lemma ReadKeepAlive(out: seq<Parsed>)
    ensures ReadLines(Reading("message", [], out), Terminated(LinesOf(KeepAlive))) == Reading("message", [], out)
  {
    hide OneLine;
    var r, lines := Reading("message", [], out), Terminated(LinesOf(KeepAlive));
    ReadComment(r);
    ReadBlank(r);
    assert lines[0] == ": keep-alive" + "\n" && lines[1] == "" + "\n";
    assert lines[1..][0] == "\n" && lines[1..][1..] == [];
  }

  lemma TakenOverIn(item: Item)
    requires item.Event? && Clean(item)
    ensures Heard(item.name) == item.name && Taken(item.data) == item.data
  {
    TakenOver(item.name, item.data);
  }

  lemma NothingRead(r: Reading)
    ensures ReadLines(r, Terminated([])) == r
  {}

  lemma TerminatedAppend(a: seq<string>, b: seq<string>)
    ensures Terminated(a + b) == Terminated(a) + Terminated(b)
  {}

  lemma {:induction false} ReadAll(out: seq<Parsed>, items: seq<Item>)
    requires AllClean(items)
    ensures ReadLines(Reading("message", [], out), Terminated(AllLines(items)))
            == Reading("message", [], out + EventsOf(items))
    decreases |items|
  {
    hide OneLine, Clean, LinesOf, Terminated, ReadLines;
    if items == [] {
      NothingRead(Reading("message", [], out));
      assert out + [] == out;
    } else {
      var first := if items[0].Event? then [Parsed(items[0].name, items[0].data)] else [];
      TerminatedAppend(LinesOf(items[0]), AllLines(items[1..]));
      ReadAppend(Reading("message", [], out), Terminated(LinesOf(items[0])), Terminated(AllLines(items[1..])));
      if items[0].Event? {
        TakenOverIn(items[0]);
        ReadEvent(out, items[0].name, items[0].data);
      } else { ReadKeepAlive(out); }
      assert items[0].KeepAlive? ==> out + first == out;
      assert first + EventsOf(items[1..]) == EventsOf(items);
      ReadAll(out + first, items[1..]);
      assert out + first + EventsOf(items[1..]) == out + EventsOf(items);
    }
  }

  /** Reading any mixture of printed events and keep-alives gives the events, in order. */
  lemma ParseInvertsPrint(items: seq<Item>)
    requires AllClean(items)
    ensures Parse(PrintAll(items)) == EventsOf(items)
  {
    PrintAllIsLines(items);
    CleanLines(items);
    LinesOfUnlines(AllLines(items));
    ReadAll([], items);
    assert [] + EventsOf(items) == EventsOf(items);
  }

  /** One event, without line breaks inside, comes back exactly when it is clean. */
  lemma OneEventComesBack(name: string, data: string)
    requires '\n' !in name && '\n' !in data
    ensures Parse(Print(Event(name, data))) == [Parsed(name, data)] <==> Clean(Event(name, data))
  {
    var lines := LinesOf(Event(name, data));
    PrintIsLines(Event(name, data));
    LinesOfUnlines(lines);
    ReadEvent([], name, data);
    assert [] + [Parsed(Heard(name), Taken(data))] == [Parsed(Heard(name), Taken(data))];
    TakenOver(name, data);
  }

  /** The payloads the server prints are compact JSON objects: clean. */
  lemma JsonObjectsAreClean(name: string, body: string)
    requires name in {"progress", "result", "error"} && '\n' !in body
    ensures Clean(Event(name, "{" + body + "}"))
  {
    var data := "{" + body + "}";
    assert data[0] == '{' && data[|data| - 1] == '}';
    Unstripped(data);
    Unstripped(name);
  }
}
