/**
 * `readSse`: server-sent events from a stream read chunk by chunk. A line ends at CR LF, LF or CR, and a
 * CR at the end of a chunk ends its line at once, so a CR LF that two chunks share is read as two ends.
 */
module Sse {
  import opened Common
  import opened Splitting

  /** The lines that ended, and the text of the one that has not. */
  datatype Lines = Lines(lines: seq<string>, rest: string)

  predicate IsEnd(c: char) {
    c == '\n' || c == '\r'
  }

  predicate Endless(s: string) {
    forall i :: 0 <= i < |s| ==> !IsEnd(s[i])
  }

  /** The line rules of sections 9.2.5 and 9.2.6 of the WHATWG HTML standard, from the last character back. */
  function Read(s: string): (r: Lines)
    ensures Endless(r.rest)
  {
    if s == [] then Lines([], [])
    else
      var n := |s| - 1;
      var before := Read(s[..n]);
      if s[n] == '\n' && n > 0 && s[n - 1] == '\r' then before
      else if IsEnd(s[n]) then Lines(before.lines + [before.rest], [])
      else Lines(before.lines, before.rest + [s[n]])
  }

  predicate SplitsCrlf(a: string, b: string) {
    a != [] && a[|a| - 1] == '\r' && b != [] && b[0] == '\n'
  }

  lemma {:induction false} ReadOfEndless(s: string)
    requires Endless(s)
    ensures Read(s) == Lines([], s)
  {
    if s != [] {
      ReadOfEndless(s[..|s| - 1]);
      assert s == s[..|s| - 1] + [s[|s| - 1]];
    }
  }

  /** A text that ends in CR has no unfinished line. */
  lemma AfterCr(a: string)
    requires a != [] && a[|a| - 1] == '\r'
    ensures Read(a).rest == []
  {
  }

  /** How the last character ends a line or goes on with one; `prev` stands before it. */
  function Last(before: Lines, prev: Option<char>, c: char): Lines {
    if c == '\n' && prev == Some('\r') then before
    else if IsEnd(c) then Lines(before.lines + [before.rest], [])
    else Lines(before.lines, before.rest + [c])
  }

  lemma ReadLast(s: string, c: char)
    ensures Read(s + [c]) == Last(Read(s), if s == [] then None else Some(s[|s| - 1]), c)
  {
    assert (s + [c])[..|s|] == s;
  }

  /** One more character of the second go. */
  lemma ReadAppendOne(a: string, r: string, b: string, c: char)
    requires r == Read(a).rest && Endless(r) && !SplitsCrlf(a, b + [c])
    requires Read(a + b) == Lines(Read(a).lines + Read(r + b).lines, Read(r + b).rest)
    ensures Read(a + (b + [c])) == Lines(Read(a).lines + Read(r + (b + [c])).lines, Read(r + (b + [c])).rest)
  {
    assert a + (b + [c]) == (a + b) + [c] && r + (b + [c]) == (r + b) + [c];
    ReadLast(a + b, c);
    ReadLast(r + b, c);
    LastSame(a, r, b, c);
    hide Read, Endless, SplitsCrlf;
    Extends(Read(a).lines, Read(r + b), if r + b == [] then None else Some((r + b)[|r + b| - 1]), c);
  }

  /** Reading in two goes, the unfinished line carried over, is reading once, unless a CR LF is split. */
  lemma {:induction false} ReadAppend(a: string, b: string)
    requires !SplitsCrlf(a, b)
    ensures Read(a + b) == Lines(Read(a).lines + Read(Read(a).rest + b).lines, Read(Read(a).rest + b).rest)
  {
    var r := Read(a).rest;
    if b == [] {
      ReadOfEndless(r);
      assert a + b == a && r + b == r;
    } else {
      var b', c := b[..|b| - 1], b[|b| - 1];
      assert b == b' + [c];
      ReadAppend(a, b');
      ReadAppendOne(a, r, b', c);
    }
  }

  /** Whether a LF follows a CR is told alike with the whole text before it or only its unfinished line. */
  lemma LastSame(a: string, r: string, b: string, c: char)
    requires Endless(r) && !SplitsCrlf(a, b + [c])
    ensures c == '\n' ==>
      (((a + b) != [] && (a + b)[|a + b| - 1] == '\r') <==> ((r + b) != [] && (r + b)[|r + b| - 1] == '\r'))
  {
    if b != [] {
      assert (a + b)[|a + b| - 1] == b[|b| - 1] == (r + b)[|r + b| - 1];
    } else {
      assert a + b == a && r + b == r && (b + [c])[0] == c;
      assert r != [] ==> !IsEnd(r[|r| - 1]);
    }
  }

  lemma Extends(lines: seq<string>, l: Lines, prev: Option<char>, c: char)
    ensures Last(Lines(lines + l.lines, l.rest), prev, c) == Lines(lines + Last(l, prev, c).lines, Last(l, prev, c).rest)
  {
    assert lines + l.lines + [l.rest] == lines + (l.lines + [l.rest]);
  }

  /** A split CR LF reads as one more line, an empty one. */
  lemma {:induction false} ReadSplitCrlf(a: string, b: string)
    requires SplitsCrlf(a, b)
    ensures Read(b).lines != [] && Read(b).lines[0] == ""
    ensures Read(a + b) == Lines(Read(a).lines + Read(b).lines[1..], Read(b).rest)
    decreases |b|
  {
    AfterCr(a);
    var n := |b| - 1;
    assert (a + b)[..|a + b| - 1] == a + b[..n] && (a + b)[|a + b| - 1] == b[n];
    if n == 0 {
      assert b == ['\n'] && b[..0] == [] && a + b[..0] == a;
      assert (a + b)[|a + b| - 2] == '\r';
      assert Read(b) == Lines([""], []);
      assert Read(a).lines + [""][1..] == Read(a).lines;
    } else {
      ReadSplitCrlf(a, b[..n]);
      assert (a + b)[|a + b| - 2] == b[n - 1];
    }
  }

  function EndLength(buf: string, at: nat): nat
    requires at < |buf|
  {
    if buf[at] == '\r' && at + 1 < |buf| && buf[at + 1] == '\n' then 2 else 1
  }

  /** Where a first line end stands, and how long it is; past the end if there is none. */
  method FindEnd(buf: string) returns (at: nat, len: nat)
    ensures at <= |buf| && Endless(buf[..at])
    ensures at < |buf| ==> IsEnd(buf[at]) && len == EndLength(buf, at) && at + len <= |buf|
  {
    at, len := 0, 0;
    while at < |buf| && !IsEnd(buf[at])
      invariant 0 <= at <= |buf| && Endless(buf[..at])
    {
      at := at + 1;
    }
    if at < |buf| { len := EndLength(buf, at); }
  }

  /** A line and its end read as that line. */
  lemma OneLine(line: string, c: char)
    requires Endless(line) && IsEnd(c)
    ensures Read(line + [c]) == Lines([line], [])
    ensures c == '\r' ==> Read(line + [c, '\n']) == Lines([line], [])
  {
    var first := line + [c];
    ReadOfEndless(line);
    assert first[..|line|] == line && first[|line|] == c;
    assert line != [] ==> first[|line| - 1] == line[|line| - 1];
    assert [] + [line] == [line];
    if c == '\r' {
      var ended := line + [c, '\n'];
      assert ended[..|first|] == first && ended[|first|] == '\n' && ended[|first| - 1] == '\r' && |ended| == |first| + 1;
    }
  }

  lemma LineThen(line: string, end: string, after: string)
    requires Endless(line) && (end == ['\n'] || end == ['\r'] || end == ['\r', '\n']) && !SplitsCrlf(end, after)
    ensures Read(line + end + after) == Lines([line] + Read(after).lines, Read(after).rest)
  {
    var ended := line + end;
    OneLine(line, end[0]);
    assert Read(ended) == Lines([line], []);
    assert ended[|ended| - 1] == end[|end| - 1];
    hide Read, Endless;
    ReadAppend(ended, after);
    assert [] + after == after;
  }

  lemma Sliced(buf: string, i: nat, j: nat)
    requires i <= j <= |buf|
    ensures buf[..i] + buf[i..j] + buf[j..] == buf
  {
  }

  lemma FirstLine(buf: string, at: nat, len: nat)
    requires at < |buf| && Endless(buf[..at]) && IsEnd(buf[at])
    requires len == EndLength(buf, at)
    ensures at + len <= |buf|
    ensures Read(buf) == Lines([buf[..at]] + Read(buf[at + len..]).lines, Read(buf[at + len..]).rest)
  {
    hide Read, Endless;
    var end, after := buf[at..at + len], buf[at + len..];
    assert if len == 2 then end == ['\r', '\n'] else end == [buf[at]];
    assert after != [] ==> after[0] == buf[at + len];
    Sliced(buf, at, at + len);
    LineThen(buf[..at], end, after);
  }

  // ---- Chunks ----

  /** What reading chunk by chunk gives. */
  function Fed(chunks: seq<string>): Lines {
    if chunks == [] then Lines([], [])
    else
      var before := Fed(chunks[..|chunks| - 1]);
      var now := Read(before.rest + chunks[|chunks| - 1]);
      Lines(before.lines + now.lines, now.rest)
  }

  /** How many CR LFs two chunks share. */
  function Shared(chunks: seq<string>): nat {
    if chunks == [] then 0
    else
      Shared(chunks[..|chunks| - 1])
        + if SplitsCrlf(Concat(chunks[..|chunks| - 1]), chunks[|chunks| - 1]) then 1 else 0
  }

  /** Chunked reading leaves the same unfinished line, and one more line for each CR LF shared by two chunks. */
  lemma {:induction false} FedAgainstWhole(chunks: seq<string>)
    ensures Fed(chunks).rest == Read(Concat(chunks)).rest
    ensures |Fed(chunks).lines| == |Read(Concat(chunks)).lines| + Shared(chunks)
    ensures Shared(chunks) == 0 ==> Fed(chunks) == Read(Concat(chunks))
  {
    if chunks != [] {
      var init, last := chunks[..|chunks| - 1], chunks[|chunks| - 1];
      var a := Concat(init);
      FedAgainstWhole(init);
      if SplitsCrlf(a, last) {
        AfterCr(a);
        ReadSplitCrlf(a, last);
        assert [] + last == last;
      } else {
        ReadAppend(a, last);
      }
    }
  }

  /** The lines are the whole stream's, whatever the chunks, exactly when no two chunks share a CR LF. */
  lemma LinesSameIff(chunks: seq<string>)
    ensures Fed(chunks) == Read(Concat(chunks)) <==> Shared(chunks) == 0
  {
    FedAgainstWhole(chunks);
  }

  // ---- Events ----

  predicate IsData(line: string) {
    |line| >= 5 && line[..5] == "data:"
  }

  function DataOf(line: string): string
    requires IsData(line)
  {
    if |line| > 5 && line[5] == ' ' then line[6..] else line[5..]
  }

  function JoinLf(data: seq<string>): string {
    if data == [] then "" else if |data| == 1 then data[0] else JoinLf(data[..|data| - 1]) + "\n" + data[|data| - 1]
  }

  datatype Events = Events(events: seq<string>, data: seq<string>)

  function LineIn(e: Events, line: string): Events {
    if line == "" then Events(if e.data != [] then e.events + [JoinLf(e.data)] else e.events, [])
    else if IsData(line) then Events(e.events, e.data + [DataOf(line)])
    else e
  }

  function LinesIn(e: Events, lines: seq<string>): Events {
    if lines == [] then e else LineIn(LinesIn(e, lines[..|lines| - 1]), lines[|lines| - 1])
  }

  /** At the stream's end an unfinished line counts as a line, and what is pending is dispatched. */
  function Whole(l: Lines): seq<string> {
    LineIn(LinesIn(Events([], []), l.lines + if l.rest != "" then [l.rest] else []), "").events
  }

  // ---- Events written and read ----

  /** A data line adds its text, with or without the one space after the colon. */
  lemma DataLineReads(e: Events, text: string)
    ensures LineIn(e, "data: " + text) == e.(data := e.data + [text])
    ensures text == "" || text[0] != ' ' ==> LineIn(e, "data:" + text) == e.(data := e.data + [text])
  {
    assert ("data: " + text)[..5] == "data:" && ("data: " + text)[5..] == " " + text && (" " + text)[1..] == text;
    assert ("data:" + text)[..5] == "data:" && ("data:" + text)[5..] == text;
  }

  /** A line that does not begin with the field's name adds nothing. */
  lemma OtherLineIsIgnored(e: Events, line: string)
    requires line != "" && (|line| < 5 || line[0] != 'd' || line[1] != 'a' || line[2] != 't' || line[3] != 'a' || line[4] != ':')
    ensures LineIn(e, line) == e
  {
    if |line| >= 5 { assert line[..5] == [line[0], line[1], line[2], line[3], line[4]]; }
  }

  lemma {:induction false} LinesInAppend(e: Events, a: seq<string>, b: seq<string>)
    ensures LinesIn(e, a + b) == LinesIn(LinesIn(e, a), b)
  {
    if b == [] {
      assert a + b == a;
    } else {
      LinesInAppend(e, a, b[..|b| - 1]);
      assert (a + b)[..|a + b| - 1] == a + b[..|b| - 1];
    }
  }

  /** An empty line with no data before it is no event. */
  lemma EmptyLineAlone(e: Events)
    ensures LineIn(e, "").data == [] && (e.data == [] ==> LineIn(e, "") == e)
    ensures e.data != [] ==> LineIn(e, "").events == e.events + [JoinLf(e.data)]
  {
  }

  function DataLines(texts: seq<string>): seq<string> {
    if texts == [] then [] else DataLines(texts[..|texts| - 1]) + ["data: " + texts[|texts| - 1]]
  }

  /** Events as a server writes them: each its data lines, and an empty one. */
  function Written(events: seq<seq<string>>): seq<string> {
    if events == [] then [] else Written(events[..|events| - 1]) + (DataLines(events[|events| - 1]) + [""])
  }

  function Joined(events: seq<seq<string>>): seq<string> {
    if events == [] then [] else Joined(events[..|events| - 1]) + [JoinLf(events[|events| - 1])]
  }

  lemma {:induction false} DataLinesRead(e: Events, texts: seq<string>)
    ensures LinesIn(e, DataLines(texts)) == e.(data := e.data + texts)
    decreases |texts|
  {
    if texts == [] {
      assert e.data + texts == e.data;
    } else {
      var init, last := texts[..|texts| - 1], texts[|texts| - 1];
      var lines := DataLines(texts);
      DataLinesRead(e, init);
      DataLineReads(e.(data := e.data + init), last);
      assert lines[..|lines| - 1] == DataLines(init) && lines[|lines| - 1] == "data: " + last;
      assert e.data + init + [last] == e.data + texts;
      hide LineIn;
    }
  }

  /** Whatever events are written, each of one line of data at least, are read back, in order, their lines joined. */
  lemma {:induction false} EventsReadBack(e: Events, events: seq<seq<string>>)
    requires e.data == [] && forall ev :: ev in events ==> ev != []
    ensures LinesIn(e, Written(events)) == e.(events := e.events + Joined(events))
    decreases |events|
  {
    if events == [] {
      assert e.events + Joined(events) == e.events;
    } else {
      var init, last := events[..|events| - 1], events[|events| - 1];
      assert last in events && forall ev :: ev in init ==> ev in events;
      EventsReadBack(e, init);
      var mid := e.(events := e.events + Joined(init));
      var lines := DataLines(last) + [""];
      LinesInAppend(e, Written(init), lines);
      DataLinesRead(mid, last);
      assert lines[..|lines| - 1] == DataLines(last) && lines[|lines| - 1] == "";
      assert [] + last == last;
      assert LinesIn(mid, lines) == LineIn(mid.(data := last), "");
      assert e.events + Joined(init) + [JoinLf(last)] == e.events + Joined(events);
    }
  }

  lemma JoinLfMore(texts: seq<string>)
    requires |texts| > 1
    ensures JoinLf(texts) + ['\n'] == (JoinLf(texts[..|texts| - 1]) + ['\n']) + (texts[|texts| - 1] + ['\n'])
  {
  }

  /** The join has every line, a newline between each and the next, and so is cut into them again. */
  lemma {:induction false} JoinLfCuts(texts: seq<string>)
    requires texts != [] && forall t :: t in texts ==> '\n' !in t
    ensures Split(JoinLf(texts) + ['\n'], '\n') == Cut(texts, [])
    decreases |texts|
  {
    var init, last := texts[..|texts| - 1], texts[|texts| - 1];
    ClosedOne(last, '\n');
    assert texts == init + [last] && last in texts;
    if init != [] {
      JoinLfCuts(init);
      JoinLfMore(texts);
      hide Split, JoinLf;
      SplitAppend(JoinLf(init) + ['\n'], last + ['\n'], '\n');
      assert [] + (last + ['\n']) == last + ['\n'];
    }
  }

  class Reader {
    var buf: string
    var got: Events

    constructor ()
      ensures buf == "" && got == Events([], [])
    {
      buf, got := "", Events([], []);
    }

    method Line(line: string)
      modifies this
      ensures got == LineIn(old(got), line) && buf == old(buf)
    {
      if line == "" {
        if got.data != [] { got := Events(got.events + [JoinLf(got.data)], []); }
      } else if IsData(line) {
        var value := line[5..];
        if value != "" && value[0] == ' ' { value := value[1..]; }
        got := got.(data := got.data + [value]);
      }
    }

    method Chunk(chunk: string)
      modifies this
      ensures var now := Read(old(buf) + chunk); buf == now.rest && got == LinesIn(old(got), now.lines)
    {
      buf := buf + chunk;
      ghost var now, taken := Read(buf), [];
      assert LinesIn(got, taken) == got && taken + now.lines == now.lines;
      hide Read, LineIn, LinesIn, Endless;
      var at, len := FindEnd(buf);
      while at < |buf|
        invariant 0 <= at <= |buf| && Endless(buf[..at])
        invariant at < |buf| ==> IsEnd(buf[at]) && len == EndLength(buf, at) && at + len <= |buf|
        invariant taken + Read(buf).lines == now.lines && Read(buf).rest == now.rest
        invariant got == LinesIn(old(got), taken)
        decreases |buf|
      {
        LineTaken(old(got), taken, buf, at, len);
        taken := taken + [buf[..at]];
        Line(buf[..at]);
        buf := buf[at + len..];
        at, len := FindEnd(buf);
      }
      assert buf[..at] == buf;
      ReadOfEndless(buf);
      assert taken + [] == taken;
    }
  }

  lemma LineTaken(e: Events, taken: seq<string>, buf: string, at: nat, len: nat)
    requires at < |buf| && Endless(buf[..at]) && IsEnd(buf[at]) && len == EndLength(buf, at)
    ensures at + len <= |buf|
    ensures taken + [buf[..at]] + Read(buf[at + len..]).lines == taken + Read(buf).lines && Read(buf[at + len..]).rest == Read(buf).rest
    ensures LinesIn(e, taken + [buf[..at]]) == LineIn(LinesIn(e, taken), buf[..at])
  {
    FirstLine(buf, at, len);
    LinesInAppend(e, taken, [buf[..at]]);
    OneLineIn(LinesIn(e, taken), buf[..at]);
    hide Read, LinesIn, LineIn, Endless;
    assert taken + ([buf[..at]] + Read(buf[at + len..]).lines) == taken + [buf[..at]] + Read(buf[at + len..]).lines;
  }

  lemma OneLineIn(e: Events, line: string)
    ensures LinesIn(e, [line]) == LineIn(e, line)
  {
    assert [line][..0] == [];
  }

  /** The whole of `readSse`. */
  method ReadSse(chunks: seq<string>) returns (events: seq<string>)
    ensures events == Whole(Fed(chunks))
    ensures Shared(chunks) == 0 ==> events == Whole(Read(Concat(chunks)))
  {
    var reader := new Reader();
    var i := 0;
    while i < |chunks|
      invariant 0 <= i <= |chunks|
      invariant reader.buf == Fed(chunks[..i]).rest && reader.got == LinesIn(Events([], []), Fed(chunks[..i]).lines)
    {
      assert chunks[..i + 1][..i] == chunks[..i];
      LinesInAppend(Events([], []), Fed(chunks[..i]).lines, Read(reader.buf + chunks[i]).lines);
      reader.Chunk(chunks[i]);
      i := i + 1;
    }
    assert chunks[..i] == chunks;
    FedAgainstWhole(chunks);
    var l := Fed(chunks);
    LinesInAppend(Events([], []), l.lines, if l.rest != "" then [l.rest] else []);
    OneLineIn(reader.got, reader.buf);
    if reader.buf != "" { reader.Line(reader.buf); }
    reader.Line("");
    return reader.got.events;
  }

  /** No chunk that ends in CR: no CR LF is shared, and the events are the whole stream's. */
  lemma {:induction false} NoneEndsInCr(chunks: seq<string>)
    requires forall i :: 0 <= i < |chunks| && chunks[i] != "" ==> chunks[i][|chunks[i]| - 1] != '\r'
    ensures Shared(chunks) == 0 && (Concat(chunks) != "" ==> Concat(chunks)[|Concat(chunks)| - 1] != '\r')
  {
    if chunks != [] {
      var init, last := chunks[..|chunks| - 1], chunks[|chunks| - 1];
      NoneEndsInCr(init);
      if last == "" {
        assert Concat(init) + last == Concat(init);
      } else {
        assert Concat(chunks)[|Concat(chunks)| - 1] == last[|last| - 1];
      }
    }
  }

  /** One event becomes two when its line's CR LF comes in two chunks. */
  lemma SharedCrlfBreaksAnEvent()
    ensures var chunks := ["data:a\r", "\ndata:b\n"];
      Whole(Fed(chunks)) == ["a", "b"] && Whole(Read(Concat(chunks))) == ["a\nb"]
  {
    var chunks := ["data:a\r", "\ndata:b\n"];
    TwoReadings();
    TwoEvents();
    hide Read, Whole;
    assert chunks[..1] == ["data:a\r"] && chunks[..1][..0] == [];
    assert Concat(chunks[..1]) == "data:a\r";
    assert Concat(chunks) == "data:a\r" + "\ndata:b\n" == "data:a\r\ndata:b\n";
    assert "" + "data:a\r" == "data:a\r" && "" + "\ndata:b\n" == "\ndata:b\n";
    assert Fed(chunks[..1]) == Lines([] + ["data:a"], "");
    assert [] + ["data:a"] == ["data:a"];
    assert Fed(chunks) == Lines(["data:a"] + ([""] + ["data:b"]), "");
  }

  lemma TwoReadings()
    ensures Read("data:a\r") == Lines(["data:a"], "")
    ensures Read("\ndata:b\n") == Lines([""] + ["data:b"], "")
    ensures Read("data:a\r\ndata:b\n") == Lines(["data:a"] + ["data:b"], "")
  {
    OneLine("data:a", '\r');
    OneLine("data:b", '\n');
    assert Endless("data:a") && Endless("");
    hide Read, Endless;
    assert "data:a" + ['\r'] == "data:a\r" && "data:b" + ['\n'] == "data:b\n";
    LineThen("", ['\n'], "data:b\n");
    LineThen("data:a", ['\r', '\n'], "data:b\n");
    assert "" + ['\n'] + "data:b\n" == "\ndata:b\n";
    assert "data:a" + ['\r', '\n'] + "data:b\n" == "data:a\r\ndata:b\n";
  }

  lemma TwoEvents()
    ensures Whole(Lines(["data:a"] + ([""] + ["data:b"]), "")) == ["a", "b"]
    ensures Whole(Lines(["data:a"] + ["data:b"], "")) == ["a\nb"]
  {
    var none := Events([], []);
    assert "data:a"[..5] == "data:" && "data:a"[5..] == "a" && "data:b"[..5] == "data:" && "data:b"[5..] == "b";
    assert [] + ["a"] == ["a"] && [] + ["b"] == ["b"];
    assert LineIn(none, "data:a") == Events([], ["a"]) && LineIn(Events([], ["a"]), "") == Events([] + [JoinLf(["a"])], []);
    assert LineIn(Events(["a"], []), "data:b") == Events(["a"], ["b"]) && LineIn(Events([], ["a"]), "data:b") == Events([], ["a"] + ["b"]);
    OneLineIn(none, "data:a");
    OneLineIn(Events([], ["a"]), "");
    OneLineIn(Events(["a"], []), "data:b");
    OneLineIn(Events([], ["a"]), "data:b");
    LinesInAppend(none, ["data:a"], [""] + ["data:b"]);
    LinesInAppend(Events([], ["a"]), [""], ["data:b"]);
    LinesInAppend(none, ["data:a"], ["data:b"]);
    hide LinesIn;
    assert JoinLf(["a"]) == "a" && JoinLf(["b"]) == "b" && JoinLf(["a"] + ["b"]) == "a\nb" by {
      assert (["a"] + ["b"])[..1] == ["a"];
    }
    assert LinesIn(none, ["data:a"] + ([""] + ["data:b"])) == Events(["a"], ["b"]);
    assert LinesIn(none, ["data:a"] + ["data:b"]) == Events([], ["a"] + ["b"]);
    assert ["a"] + ["b"] == ["a", "b"];
    assert ["data:a"] + ([""] + ["data:b"]) + [] == ["data:a"] + ([""] + ["data:b"]);
    assert ["data:a"] + ["data:b"] + [] == ["data:a"] + ["data:b"];
  }
}
