/** Streams cut into messages as they arrive: however a stream is chunked, what comes out is the same. */
module Framing {
  import opened Common
  import opened Splitting

  /** The pieces that parse, in order; one that does not is skipped. */
  function Parsed<M>(pieces: seq<string>, parse: string -> Option<M>): seq<M> {
    if pieces == [] then []
    else
      var last := parse(pieces[|pieces| - 1]);
      Parsed(pieces[..|pieces| - 1], parse) + if last.Some? then [last.value] else []
  }

  lemma {:induction false} ParsedAppend<M>(a: seq<string>, b: seq<string>, parse: string -> Option<M>)
    ensures Parsed(a + b, parse) == Parsed(a, parse) + Parsed(b, parse)
  {
    if b == [] {
      assert a + b == a;
    } else {
      ParsedAppend(a, b[..|b| - 1], parse);
      assert (a + b)[..|a + b| - 1] == a + b[..|b| - 1];
    }
  }

  /** Where the separator first stands, or past the end. */
  method IndexOf<T(==)>(s: seq<T>, sep: T) returns (at: nat)
    ensures at <= |s| && sep !in s[..at] && (at < |s| ==> s[at] == sep)
  {
    at := 0;
    while at < |s| && s[at] != sep
      invariant 0 <= at <= |s| && sep !in s[..at]
    {
      at := at + 1;
    }
  }

  /** A text cut at its first separator: its first piece, then the pieces of what follows. */
  lemma FirstPiece<T>(s: seq<T>, at: nat, sep: T)
    requires at < |s| && s[at] == sep && sep !in s[..at]
    ensures Split(s, sep) == Cut([s[..at]] + Split(s[at + 1..], sep).pieces, Split(s[at + 1..], sep).rest)
  {
    hide Split;
    var p, after := s[..at], s[at + 1..];
    assert s == (p + [sep]) + after;
    SplitAppend(p + [sep], after, sep);
    ClosedOne(p, sep);
    assert [] + after == after;
  }

  // ---- The browser's DevTools pipe ----

  /** `PipeFramer`: JSON documents ended by NUL. */
  class PipeFramer<M> {
    const parse: string -> Option<M>
    var buffer: string
    var messages: seq<M>
    ghost var received: string

    /** What came out is what a cut of all that came in gives, and the unfinished document waits. */
    ghost predicate Valid()
      reads this
    {
      messages == Parsed(Split(received, '\0').pieces, parse) && buffer == Split(received, '\0').rest
    }

    constructor (parse: string -> Option<M>)
      ensures Valid() && received == "" && this.parse == parse
    {
      this.parse := parse;
      buffer, messages, received := "", [], "";
    }

    method Push(chunk: string)
      requires Valid()
      modifies this
      ensures Valid() && received == old(received) + chunk
    {
      SplitAppend(received, chunk, '\0');
      ghost var cut := Split(buffer + chunk, '\0');
      ParsedAppend(Split(received, '\0').pieces, cut.pieces, parse);
      hide Split, Parsed;
      received := received + chunk;
      buffer := buffer + chunk;
      ghost var taken: seq<string> := [];
      assert Parsed([], parse) == [] by { NoneParsed(parse); }
      assert taken + Split(buffer, '\0').pieces == cut.pieces;
      var at := IndexOf(buffer, '\0');
      while at < |buffer|
        invariant 0 <= at <= |buffer| && '\0' !in buffer[..at] && (at < |buffer| ==> buffer[at] == '\0')
        invariant taken + Split(buffer, '\0').pieces == cut.pieces && Split(buffer, '\0').rest == cut.rest
        invariant messages == old(messages) + Parsed(taken, parse) && received == old(received) + chunk
        decreases |buffer|
      {
        var raw := buffer[..at];
        FirstPiece(buffer, at, '\0');
        ParsedOne(taken, raw, parse);
        Regroup(taken, [raw], Split(buffer[at + 1..], '\0').pieces);
        buffer := buffer[at + 1..];
        taken := taken + [raw];
        var message := parse(raw);
        if message.Some? { messages := messages + [message.value]; }
        at := IndexOf(buffer, '\0');
      }
      assert buffer[..at] == buffer;
      SplitOfUncut(buffer, '\0');
      assert taken + [] == taken;
    }

    /** A whole stream, in chunks. */
    method PushAll(chunks: seq<string>)
      requires Valid()
      modifies this
      ensures Valid() && received == old(received) + Concat(chunks)
    {
      var i := 0;
      while i < |chunks|
        invariant 0 <= i <= |chunks| && Valid() && received == old(received) + Concat(chunks[..i])
      {
        Push(chunks[i]);
        assert chunks[..i + 1][..i] == chunks[..i];
        Regroup(old(received), Concat(chunks[..i]), chunks[i]);
        i := i + 1;
      }
      assert chunks[..i] == chunks;
    }
  }

  lemma NoneParsed<M>(parse: string -> Option<M>)
    ensures Parsed([], parse) == []
  {
  }

  lemma ParsedOne<M>(taken: seq<string>, raw: string, parse: string -> Option<M>)
    ensures Parsed(taken + [raw], parse) == Parsed(taken, parse) + if parse(raw).Some? then [parse(raw).value] else []
  {
    assert (taken + [raw])[..|taken|] == taken;
  }

  lemma Regroup<T>(a: seq<T>, b: seq<T>, c: seq<T>)
    ensures a + b + c == a + (b + c)
  {
  }

  /** Any two chunkings of one stream give the same messages, and leave the same unfinished document. */
  method SameMessages<M>(parse: string -> Option<M>, a: seq<string>, b: seq<string>) returns (x: seq<M>, y: seq<M>)
    requires Concat(a) == Concat(b)
    ensures x == y == Parsed(Split(Concat(a), '\0').pieces, parse)
  {
    var f := new PipeFramer(parse);
    var g := new PipeFramer(parse);
    f.PushAll(a);
    g.PushAll(b);
    assert "" + Concat(a) == Concat(a) && "" + Concat(b) == Concat(b);
    return f.messages, g.messages;
  }

  // ---- A pi turn's stdout ----

  function Unblank(lines: seq<string>, blank: string -> bool): seq<string> {
    if lines == [] then []
    else Unblank(lines[..|lines| - 1], blank) + if blank(lines[|lines| - 1]) then [] else [lines[|lines| - 1]]
  }

  lemma {:induction false} UnblankAppend(a: seq<string>, b: seq<string>, blank: string -> bool)
    ensures Unblank(a + b, blank) == Unblank(a, blank) + Unblank(b, blank)
  {
    if b == [] {
      assert a + b == a;
    } else {
      UnblankAppend(a, b[..|b| - 1], blank);
      assert (a + b)[..|a + b| - 1] == a + b[..|b| - 1];
    }
  }

  /** The lines that are not blank, in order: none of none, and of one that one or none. */
  lemma UnblankOne(line: string, blank: string -> bool)
    ensures Unblank([], blank) == []
    ensures Unblank([line], blank) == if blank(line) then [] else [line]
  {
    assert [line][..0] == [];
  }

  /** `text.split(sep)`: the closed pieces, and the last one whatever it is. */
  method SplitText(text: string, sep: char) returns (pieces: seq<string>)
    ensures pieces == Split(text, sep).pieces + [Split(text, sep).rest]
  {
    hide Split;
    pieces := [];
    var rest := text;
    var at := IndexOf(rest, sep);
    while at < |rest|
      invariant 0 <= at <= |rest| && sep !in rest[..at] && (at < |rest| ==> rest[at] == sep)
      invariant pieces + Split(rest, sep).pieces == Split(text, sep).pieces && Split(rest, sep).rest == Split(text, sep).rest
      decreases |rest|
    {
      FirstPiece(rest, at, sep);
      Regroup(pieces, [rest[..at]], Split(rest[at + 1..], sep).pieces);
      pieces := pieces + [rest[..at]];
      rest := rest[at + 1..];
      at := IndexOf(rest, sep);
    }
    assert rest[..at] == rest;
    SplitOfUncut(rest, sep);
    assert pieces + [] == pieces;
    pieces := pieces + [rest];
  }

  /** `createPiPipe`: the lines that are not blank, each taken once, the unfinished last one at the close. */
  class PiPipe {
    const blank: string -> bool
    var carry: string
    var taken: seq<string>
    ghost var written: string

    ghost predicate Valid()
      reads this
    {
      taken == Unblank(Split(written, '\n').pieces, blank) && carry == Split(written, '\n').rest
    }

    constructor (blank: string -> bool)
      ensures Valid() && written == "" && this.blank == blank
    {
      this.blank := blank;
      carry, taken, written := "", [], "";
    }

    method Take(line: string)
      modifies this
      ensures taken == old(taken) + (if blank(line) then [] else [line]) && carry == old(carry) && written == old(written)
    {
      if blank(line) { return; }
      taken := taken + [line];
    }

    method Write(chunk: string)
      requires Valid()
      modifies this
      ensures Valid() && written == old(written) + chunk
    {
      SplitAppend(written, chunk, '\n');
      ghost var before, cut := Split(written, '\n').pieces, Split(carry + chunk, '\n');
      UnblankAppend(before, cut.pieces, blank);
      var pieces := SplitText(carry + chunk, '\n');
      hide Split;
      var lines := pieces[..|pieces| - 1];
      assert lines == cut.pieces;
      carry := pieces[|pieces| - 1];
      written := written + chunk;
      var i := 0;
      while i < |lines|
        invariant 0 <= i <= |lines| && carry == cut.rest && written == old(written) + chunk
        invariant taken == old(taken) + Unblank(lines[..i], blank)
      {
        assert lines[..i + 1][..i] == lines[..i];
        Take(lines[i]);
        i := i + 1;
      }
      assert lines[..i] == lines;
    }

    /** At the end every line of what was written has been taken, the last one ended or not. */
    method Close()
      requires Valid() && blank("")
      modifies this
      ensures taken == Unblank(Split(written, '\n').pieces + [Split(written, '\n').rest], blank)
      ensures written == old(written) && carry == ""
    {
      UnblankAppend(Split(written, '\n').pieces, [carry], blank);
      assert [carry][..0] == [];
      if carry != "" { Take(carry); }
      carry := "";
    }
  }

  /** Any chunking of pi's output takes the lines of the whole. */
  method PiLines(chunks: seq<string>, blank: string -> bool) returns (lines: seq<string>)
    requires blank("")
    ensures lines == Unblank(Split(Concat(chunks), '\n').pieces + [Split(Concat(chunks), '\n').rest], blank)
  {
    var pipe := new PiPipe(blank);
    var i := 0;
    while i < |chunks|
      invariant 0 <= i <= |chunks| && pipe.Valid() && pipe.written == Concat(chunks[..i])
    {
      assert chunks[..i + 1][..i] == chunks[..i];
      pipe.Write(chunks[i]);
      i := i + 1;
    }
    assert chunks[..i] == chunks;
    pipe.Close();
    return pipe.taken;
  }
}
