/** The notices the runner puts ahead of a turn's message, and their removal from what leaves the box. */
module BoxNotice {
  import opened Common

  const NOTICE_OPEN := "<termag-box-notice>"
  const NOTICE_CLOSE := "</termag-box-notice>"
  const MAX_NOTICE := 4096
  /** A zero-width space. */
  const DEFUSE: string := ['\U{200B}']

  predicate IsAt(s: string, part: string, i: nat) {
    i + |part| <= |s| && s[i..i + |part|] == part
  }

  predicate Contains(s: string, part: string) {
    exists i :: 0 <= i <= |s| && IsAt(s, part, i)
  }

  /** The first place of `part` from `from` on. */
  function Find(s: string, part: string, from: nat): (at: Option<nat>)
    ensures at.Some? ==> at.value >= from && IsAt(s, part, at.value)
    ensures at.Some? ==> forall i :: from <= i < at.value ==> !IsAt(s, part, i)
    ensures at.None? ==> forall i :: from <= i <= |s| ==> !IsAt(s, part, i)
    decreases |s| + 1 - from
  {
    if from > |s| then None
    else if IsAt(s, part, from) then Some(from)
    else Find(s, part, from + 1)
  }

  function DropNewlines(s: string): string {
    if s != "" && s[0] == '\n' then DropNewlines(s[1..]) else s
  }

  predicate StartsWith(s: string, part: string) {
    IsAt(s, part, 0)
  }

  /** Where a leading block ends, if there is one: past the first closing tag after the opening one. */
  function BlockEnd(s: string, open_: string, close: string): Option<nat> {
    if !StartsWith(s, open_) then None
    else
      var at := Find(s, close, |open_|);
      if at.None? then None else Some(at.value + |close|)
  }

  function StripBlock(s: string, open_: string, close: string): string {
    var end := BlockEnd(s, open_, close);
    if end.None? then s else DropNewlines(s[end.value..])
  }

  /** Whether a text has a leading notice. */
  predicate HasNotice(s: string) {
    BlockEnd(s, NOTICE_OPEN, NOTICE_CLOSE).Some?
  }

  /** `stripNotice` of a text: the leading notice and the newlines after it removed. */
  function Strip(s: string): string {
    StripBlock(s, NOTICE_OPEN, NOTICE_CLOSE)
  }

  function DefuseSent(text: string): string {
    if StartsWith(text, NOTICE_OPEN) then DEFUSE + text else text
  }

  function NonEmpty(notices: seq<string>): seq<string> {
    if notices == [] then []
    else if notices[0] == "" then NonEmpty(notices[1..])
    else [notices[0]] + NonEmpty(notices[1..])
  }

  function Paragraphs(list: seq<string>): string {
    if list == [] then "" else if |list| == 1 then list[0] else list[0] + "\n\n" + Paragraphs(list[1..])
  }

  function Block(open_: string, body: string, close: string, text: string): string {
    open_ + ("\n" + body + "\n") + close + ("\n\n" + text)
  }

  /** `withNotice`: the notices, one paragraph each, ahead of the text. */
  function WithNotice(notices: seq<string>, text: string): string {
    var list := NonEmpty(notices);
    if list == [] then text else Block(NOTICE_OPEN, Paragraphs(list), NOTICE_CLOSE, text)
  }

  // ---- Where the closing tag is ----

  /** A part without a newline that lies in a joined text lies on one side of a newline. */
  lemma PartInJoin(a: string, b: string, part: string, i: nat)
    requires '\n' !in part && part != "" && IsAt(a + "\n" + b, part, i)
    ensures Contains(a, part) || (i > |a| && IsAt(b, part, i - |a| - 1))
  {
    var s := a + "\n" + b;
    assert forall k :: 0 <= k < |part| ==> s[i + k] == part[k];
    assert s[|a|] == '\n';
    if i + |part| <= |a| {
      assert a[i..i + |part|] == part;
      assert IsAt(a, part, i);
    } else if i > |a| {
      assert b[i - |a| - 1..i - |a| - 1 + |part|] == part;
    }
  }

  lemma {:induction false} NoneInParagraphs(list: seq<string>)
    requires forall n :: n in list ==> !Contains(n, NOTICE_CLOSE)
    ensures !Contains(Paragraphs(list), NOTICE_CLOSE)
  {
    if |list| > 1 {
      var a, b := list[0], Paragraphs(list[1..]);
      assert a in list;
      NoneInParagraphs(list[1..]);
      assert a + "\n\n" + b == a + "\n" + ("\n" + b) && "\n" + b == "" + "\n" + b;
      if Contains(a + "\n" + ("\n" + b), NOTICE_CLOSE) {
        var i :| 0 <= i <= |a + "\n" + ("\n" + b)| && IsAt(a + "\n" + ("\n" + b), NOTICE_CLOSE, i);
        PartInJoin(a, "\n" + b, NOTICE_CLOSE, i);
        PartInJoin("", b, NOTICE_CLOSE, i - |a| - 1);
      }
    } else if |list| == 1 {
      assert list[0] in list;
    }
  }

  lemma FourParts(a: string, b: string, c: string, d: string)
    ensures var s := a + b + c + d;
      s[0..|a|] == a && s[|a|..] == b + c + d && s[|a| + |b|..|a| + |b| + |c|] == c && s[|a| + |b| + |c|..] == d
  {
  }

  /** In a body between newlines the closing tag is nowhere, nor across its end. */
  lemma NotInBody(body: string, close: string, after: string, i: nat)
    requires '\n' !in close && close != "" && !Contains(body, close) && i < |body| + 2
    ensures !IsAt(("\n" + body + "\n") + close + after, close, i)
  {
    var t := ("\n" + body + "\n") + close + after;
    if IsAt(t, close, i) {
      assert t == "" + "\n" + (body + "\n" + (close + after));
      PartInJoin("", body + "\n" + (close + after), close, i);
      PartInJoin(body, close + after, close, i - 1);
    }
  }

  lemma IsAtFrom(s: string, part: string, k: nat, i: nat)
    requires k <= i <= |s| && IsAt(s, part, i)
    ensures IsAt(s[k..], part, i - k)
  {
    assert s[k..][i - k..i - k + |part|] == s[i..i + |part|];
  }

  /** A block ends where its closing tag was put, its body having none. */
  lemma BlockEnds(open_: string, body: string, close: string, after: string)
    requires '\n' !in close && close != "" && !Contains(body, close)
    ensures var s, end := open_ + ("\n" + body + "\n") + close + after, |open_| + |body| + 2 + |close|;
      end <= |s| && BlockEnd(s, open_, close) == Some(end) && s[end..] == after
  {
    var mid := "\n" + body + "\n";
    var s := open_ + mid + close + after;
    var k, n := |open_|, |open_| + |mid|;
    FourParts(open_, mid, close, after);
    assert IsAt(s, close, n);
    forall i | k <= i < n
      ensures !IsAt(s, close, i)
    {
      NotInBody(body, close, after, i - k);
      if IsAt(s, close, i) { IsAtFrom(s, close, k, i); }
    }
    hide Contains;
    assert Find(s, close, k) == Some(n);
  }

  // ---- What a message holds ----

  /** A sent text is kept whole, one that opens with the tag behind a mark that shows nothing. */
  lemma DefusedEndsWithText(text: string)
    ensures var d := DefuseSent(text);
      |d| >= |text| && d[|d| - |text|..] == text && d[..|d| - |text|] == if StartsWith(text, NOTICE_OPEN) then "\U{200B}" else ""
  {
  }

  /** The notices that say something, in their order. */
  lemma {:induction false} NonEmptyAppend(a: seq<string>, b: seq<string>)
    ensures NonEmpty(a + b) == NonEmpty(a) + NonEmpty(b)
    ensures forall n :: n in a && n != "" ==> n in NonEmpty(a)
    ensures forall n :: n in NonEmpty(a) ==> n in a && n != ""
  {
    if a == [] {
      assert a + b == b;
    } else {
      assert (a + b)[0] == a[0] && (a + b)[1..] == a[1..] + b;
      NonEmptyAppend(a[1..], b);
    }
  }

  /** Each text of the list stands in `s` from its place in `at` on, one behind the other, up to `end`. */
  ghost predicate StandIn(list: seq<string>, s: string, at: seq<nat>, end: nat) {
    && |at| == |list| && (forall i :: 0 <= i < |list| ==> IsAt(s, list[i], at[i]) && at[i] + |list[i]| <= end)
    && (forall i, j :: 0 <= i < j < |list| ==> at[i] + |list[i]| <= at[j])
  }

  lemma IsAtWithin(before: string, s: string, after: string, part: string, i: nat)
    requires IsAt(s, part, i)
    ensures IsAt(before + s + after, part, |before| + i)
  {
    assert (before + s + after)[|before| + i..|before| + i + |part|] == s[i..i + |part|];
  }

  lemma StandWithin(list: seq<string>, before: string, s: string, after: string, at: seq<nat>) returns (more: seq<nat>)
    requires StandIn(list, s, at, |s|)
    ensures StandIn(list, before + s + after, more, |before| + |s|)
    ensures forall i :: 0 <= i < |more| ==> more[i] >= |before|
  {
    more := seq(|at|, i requires 0 <= i < |at| => |before| + at[i]);
    forall i | 0 <= i < |list|
      ensures IsAt(before + s + after, list[i], more[i])
    {
      IsAtWithin(before, s, after, list[i], at[i]);
    }
    hide IsAt;
  }

  lemma {:induction false} ParagraphsHold(list: seq<string>) returns (at: seq<nat>)
    ensures StandIn(list, Paragraphs(list), at, |Paragraphs(list)|)
    decreases |list|
  {
    if |list| <= 1 {
      at := seq(|list|, i => 0);
      assert list != [] ==> Paragraphs(list)[0..|list[0]|] == list[0];
    } else {
      var before, rest := list[0] + "\n\n", Paragraphs(list[1..]);
      var tail := ParagraphsHold(list[1..]);
      tail := StandWithin(list[1..], before, rest, "", tail);
      assert before + rest + "" == Paragraphs(list);
      assert Paragraphs(list)[0..|list[0]|] == list[0];
      at := [0] + tail;
      assert list == [list[0]] + list[1..];
      hide IsAt, Paragraphs;
    }
  }

  /** The message holds each notice, in order, between the tags, and ends with the text. */
  lemma MessageHolds(notices: seq<string>, text: string) returns (at: seq<nat>)
    ensures var s, list := WithNotice(notices, text), NonEmpty(notices);
      && |s| >= |text| && s[|s| - |text|..] == text && StandIn(list, s, at, |s| - |text|)
      && (list == [] ==> s == text)
      && (list != [] ==> StartsWith(s, NOTICE_OPEN) && forall i :: 0 <= i < |at| ==> at[i] >= |NOTICE_OPEN|)
  {
    var list := NonEmpty(notices);
    at := ParagraphsHold(list);
    if list != [] {
      var body := Paragraphs(list);
      BlockRegroups(NOTICE_OPEN, body, NOTICE_CLOSE, text);
      at := StandWithin(list, NOTICE_OPEN + "\n", body, "\n" + NOTICE_CLOSE + "\n\n" + text, at);
    }
  }

  lemma BlockRegroups(open_: string, body: string, close: string, text: string)
    ensures var s := Block(open_, body, close, text);
      s == (open_ + "\n") + body + ("\n" + close + "\n\n" + text) && IsAt(s, open_, 0) && |s| >= |text| && s[|s| - |text|..] == text
  {
    var s := Block(open_, body, close, text);
    assert s[0..|open_|] == open_;
  }

  // ---- The round trip ----

  lemma {:induction false} SafeNotices(notices: seq<string>)
    requires forall n :: n in notices ==> !Contains(n, NOTICE_CLOSE)
    ensures forall n :: n in NonEmpty(notices) ==> !Contains(n, NOTICE_CLOSE)
  {
    if notices != [] {
      assert notices[0] in notices;
      SafeNotices(notices[1..]);
    }
  }

  lemma StripOfBlock(open_: string, body: string, close: string, text: string)
    requires '\n' !in close && close != "" && !Contains(body, close)
    ensures BlockEnd(Block(open_, body, close, text), open_, close).Some?
    ensures StripBlock(Block(open_, body, close, text), open_, close) == DropNewlines(text)
  {
    var after := "\n\n" + text;
    var s := open_ + ("\n" + body + "\n") + close + after;
    BlockEnds(open_, body, close, after);
    TwoNewlines(text);
    assert Block(open_, body, close, text) == s;
    hide BlockEnd, Contains, Block, DropNewlines;
  }

  lemma TwoNewlines(text: string)
    ensures DropNewlines("\n\n" + text) == DropNewlines(text)
  {
    var one, two := "\n" + text, "\n\n" + text;
    assert two[0] == '\n' && two[1..] == one;
    assert one[0] == '\n' && one[1..] == text;
  }

  lemma CloseIsOneLine()
    ensures '\n' !in NOTICE_CLOSE && NOTICE_CLOSE != ""
  {
  }

  /** A strip takes exactly the notices and their newlines off, and the text's own leading newlines with them. */
  lemma StripOfNotice(notices: seq<string>, text: string)
    requires forall n :: n in notices ==> !Contains(n, NOTICE_CLOSE)
    requires NonEmpty(notices) != []
    ensures HasNotice(WithNotice(notices, text)) && Strip(WithNotice(notices, text)) == DropNewlines(text)
  {
    var body := Paragraphs(NonEmpty(notices));
    SafeNotices(notices);
    NoneInParagraphs(NonEmpty(notices));
    CloseIsOneLine();
    hide Contains, StripBlock, BlockEnd, Block, Paragraphs, NonEmpty, DropNewlines;
    StripOfBlock(NOTICE_OPEN, body, NOTICE_CLOSE, text);
  }

  lemma DefusedIsSafe(text: string)
    ensures !StartsWith(DefuseSent(text), NOTICE_OPEN)
  {
    if StartsWith(text, NOTICE_OPEN) {
      assert (DEFUSE + text)[0] == '\U{200B}' && NOTICE_OPEN[0] == '<';
      assert (DEFUSE + text)[0..|NOTICE_OPEN|][0] == '\U{200B}';
    }
  }

  lemma DefusedStart(text: string)
    ensures (DefuseSent(text) != "" && DefuseSent(text)[0] == '\n') <==> (text != "" && text[0] == '\n')
  {
    assert NOTICE_OPEN[0] == '<';
    if StartsWith(text, NOTICE_OPEN) {
      assert text[0..|NOTICE_OPEN|][0] == '<';
    }
  }

  lemma {:induction false} DropNewlinesSame(s: string)
    ensures DropNewlines(s) == s <==> s == "" || s[0] != '\n'
    ensures |DropNewlines(s)| <= |s|
  {
    if s != "" && s[0] == '\n' { DropNewlinesSame(s[1..]); }
  }

  /**
   * For all notices without the closing tag and every text a sender writes, even one that opens with the
   * tag: what is stripped of what was inserted is the text as it entered, exactly unless a notice was
   * inserted ahead of a text that starts with a newline.
   */
  lemma RoundTripIff(notices: seq<string>, text: string)
    requires forall n :: n in notices ==> !Contains(n, NOTICE_CLOSE)
    ensures Strip(WithNotice(notices, DefuseSent(text))) == DefuseSent(text)
       <==> NonEmpty(notices) == [] || text == "" || text[0] != '\n'
  {
    DefusedIsSafe(text);
    DefusedStart(text);
    DropNewlinesSame(DefuseSent(text));
    if NonEmpty(notices) != [] {
      StripOfNotice(notices, DefuseSent(text));
    }
    hide Find, DropNewlines, Contains, DefuseSent;
  }

  /** A second strip changes nothing exactly unless newlines alone kept the text's own tag from its start. */
  lemma SecondStripIff(notices: seq<string>, text: string)
    requires forall n :: n in notices ==> !Contains(n, NOTICE_CLOSE)
    ensures var once := Strip(WithNotice(notices, DefuseSent(text)));
      Strip(once) == once <==> NonEmpty(notices) == [] || !HasNotice(DropNewlines(DefuseSent(text)))
  {
    var d := DefuseSent(text);
    DefusedIsSafe(text);
    if NonEmpty(notices) != [] {
      StripOfNotice(notices, d);
      var once := DropNewlines(d);
      hide Find, Contains, DefuseSent;
      if HasNotice(once) {
        StripShortens(once);
      }
    }
  }

  lemma StripShortens(s: string)
    requires HasNotice(s)
    ensures |Strip(s)| < |s|
  {
    CloseIsOneLine();
    BlockShortens(s, NOTICE_OPEN, NOTICE_CLOSE);
  }

  lemma BlockShortens(s: string, open_: string, close: string)
    requires BlockEnd(s, open_, close).Some? && close != ""
    ensures |StripBlock(s, open_, close)| < |s|
  {
    var end := BlockEnd(s, open_, close).value;
    DropNewlinesSame(s[end..]);
  }

  /** For a text that does not start with a newline the second strip never finds anything. */
  lemma StrippedOnceForAll(notices: seq<string>, text: string)
    requires forall n :: n in notices ==> !Contains(n, NOTICE_CLOSE)
    requires text == "" || text[0] != '\n'
    ensures Strip(WithNotice(notices, DefuseSent(text))) == DefuseSent(text) && Strip(DefuseSent(text)) == DefuseSent(text)
  {
    RoundTripIff(notices, text);
    DefusedIsSafe(text);
  }

  // ---- Messages of several blocks ----

  datatype Part = Text(text: string) | Image(id: nat)

  function FirstText(parts: seq<Part>): (i: Option<nat>)
    ensures i.Some? ==> i.value < |parts| && parts[i.value].Text?
    ensures forall j :: 0 <= j < (if i.Some? then i.value else |parts|) ==> parts[j].Image?
  {
    if parts == [] then None
    else if parts[0].Text? then Some(0)
    else
      var rest := FirstText(parts[1..]);
      if rest.None? then None else Some(rest.value + 1)
  }

  /** `stripNotice` of a message of blocks: its first text; a message of images alone keeps no empty text. */
  function StripParts(parts: seq<Part>): seq<Part> {
    var i := FirstText(parts);
    if i.None? || !HasNotice(parts[i.value].text) then parts
    else if Strip(parts[i.value].text) == "" && |parts| > 1 then Without(parts, i.value)
    else parts[i.value := Text(Strip(parts[i.value].text))]
  }

  /** With notices ahead of its first text, a message is stripped to what it was, an empty text beside other parts gone. */
  lemma BlocksRoundTrip(notices: seq<string>, parts: seq<Part>, i: nat, text: string)
    requires forall n :: n in notices ==> !Contains(n, NOTICE_CLOSE)
    requires NonEmpty(notices) != [] && (text == "" || text[0] != '\n')
    requires FirstText(parts) == Some(i) && parts[i] == Text(DefuseSent(text))
    ensures var sent := parts[i := Text(WithNotice(notices, DefuseSent(text)))];
      StripParts(sent) == if DefuseSent(text) == "" && |parts| > 1 then Without(parts, i) else parts
  {
    var d := DefuseSent(text);
    StripOfNotice(notices, d);
    RoundTripIff(notices, text);
    hide Strip, HasNotice, WithNotice, DefuseSent, Contains, NonEmpty;
    var sent := parts[i := Text(WithNotice(notices, d))];
    assert FirstText(sent) == Some(i) by {
      var k := FirstText(sent);
      assert sent[i].Text? && forall j :: 0 <= j < i ==> sent[j] == parts[j];
      assert k.Some? && k.value >= i && k.value <= i;
    }
    assert Without(sent, i) == Without(parts, i);
    assert parts[i := Text(d)] == parts;
  }

  // ---- The notices themselves ----

  predicate IsSpace(c: char) {
    c in " \t\n\r" || c == '\U{000B}' || c == '\U{000C}' || c == '\U{00A0}' || c == '\U{FEFF}' || c == '\U{1680}'
    || '\U{2000}' <= c <= '\U{200A}' || c == '\U{2028}' || c == '\U{2029}' || c == '\U{202F}' || c == '\U{205F}' || c == '\U{3000}'
  }

  function Trim(s: string): (t: string)
    ensures |t| <= |s| && (t != "" ==> !IsSpace(t[0]) && !IsSpace(t[|t| - 1]))
  {
    if s == "" then ""
    else if IsSpace(s[0]) then Trim(s[1..])
    else if IsSpace(s[|s| - 1]) then Trim(s[..|s| - 1])
    else s
  }

  /** Trimming takes spaces off both ends, and all of them. */
  lemma {:induction false} TrimIs(s: string) returns (before: string, after: string)
    ensures s == before + Trim(s) + after
    ensures forall c :: c in before || c in after ==> IsSpace(c)
    ensures Trim(s) == "" || (!IsSpace(Trim(s)[0]) && !IsSpace(Trim(s)[|Trim(s)| - 1]))
    decreases |s|
  {
    before, after := "", "";
    if s == "" {
    } else if IsSpace(s[0]) {
      var more, end := TrimIs(s[1..]);
      hide IsSpace, Trim;
      before, after := [s[0]] + more, end;
      assert s == [s[0]] + s[1..];
      assert s == [s[0]] + (more + Trim(s[1..]) + end);
    } else if IsSpace(s[|s| - 1]) {
      var start, more := TrimIs(s[..|s| - 1]);
      hide IsSpace, Trim;
      before, after := start, more + [s[|s| - 1]];
      assert s == s[..|s| - 1] + [s[|s| - 1]];
      assert s == (start + Trim(s[..|s| - 1]) + more) + [s[|s| - 1]];
    }
  }

  /** A notice the orchestrator sent, or none when it is not one. */
  function SentNotice(text: string): Option<string> {
    var t := Trim(text);
    if t != "" && |t| <= MAX_NOTICE && !Contains(t, NOTICE_CLOSE) then Some(t) else None
  }

  /** It is one exactly when, trimmed, it says something, is not too long and does not hold the closing tag. */
  lemma SentNoticeIff(text: string)
    ensures SentNotice(text).Some? <==> Trim(text) != "" && |Trim(text)| <= 4096 && !Contains(Trim(text), NOTICE_CLOSE)
    ensures SentNotice(text).Some? ==> SentNotice(text).value == Trim(text)
  {
  }

  /** A message whose first text has no notice, or that has no text, is left alone. */
  lemma NoNoticeNoStrip(parts: seq<Part>)
    requires forall i :: FirstText(parts) == Some(i) ==> !HasNotice(parts[i].text)
    ensures StripParts(parts) == parts
  {
  }

  /** Whatever notice the orchestrator sends, behind the runner's own, comes off again whole. */
  lemma AnyNoticeComesOff(own: seq<string>, sent: string, text: string)
    requires forall n :: n in own ==> !Contains(n, NOTICE_CLOSE)
    requires SentNotice(sent).Some? && (text == "" || text[0] != '\n')
    ensures Strip(WithNotice(own + [SentNotice(sent).value], DefuseSent(text))) == DefuseSent(text)
  {
    hide Find, Trim, Strip, WithNotice, DefuseSent;
    StrippedOnceForAll(own + [SentNotice(sent).value], text);
  }
}
