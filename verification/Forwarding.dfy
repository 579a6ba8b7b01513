/**
 * How a turn's event log reaches the viewer: the agent tails `events.jsonl`, numbers each
 * complete line, sends it as a frame, and keeps how far it got in `forwarded.json`. Sends fail,
 * the agent dies and comes back, the wrapper keeps writing.
 */
module Forwarding {
  import opened Common
  import opened Splitting

  newtype Byte = x: int | 0 <= x < 256
  const NEWLINE: Byte := 10

  type Line = seq<Byte>

  /** What `parseEvent` and `isMcpReloadReply` make of a line. */
  datatype Kind = NotAnEvent | ReloadReply | Event

  datatype Cursor = Cursor(offset: nat, number: nat)
  datatype Frame = Frame(number: nat, line: Line)

  /**
   * Where the agent is in `poll`: between passes; sending the lines of a log that was `size` bytes long when
   * the pass looked; or past its first look at `exit` (`saw`: it was there), about to look again.
   */
  datatype Pass = Between | Sending(size: nat) | Looked(size: nat, saw: bool)

  /**
   * One turn. `log`, `exit`, `done` and `stored` (forwarded.json) are on disk; `held` is the running
   * agent's own cursor, None while no agent runs; `frames` is everything that ever reached the viewer.
   */
  datatype Turn = Turn(log: seq<Byte>, exit: bool, done: bool, stored: Cursor, held: Option<Cursor>, pass: Pass, frames: seq<Frame>)

  /** The lines of a log: `completeLines` of the whole of it. */
  function Lines(log: seq<Byte>): seq<Line> {
    Split(log, NEWLINE).pieces
  }

  // ---- The steps ----

  datatype Action =
    | Grow(bytes: seq<Byte>)                // the wrapper or Claude appends to the log
    | WriteExit                             // the wrapper's last write, or the agent closing a dead turn
    | Begin                                 // a pass: the log's size
    | Forward(taken: bool, arrived: bool)   // the next line: `emit` answered `taken`; when it did not, the frame may still have arrived
    | Persist                               // forwarded.json
    | GiveUp                                // the pass ends at a refused frame
    | FirstLook                             // at `exit`, and, with it there, at the log's size again
    | SecondLook                            // at `exit`, and then `done`
    | Crash
    | Recover

  const FRESH := Turn([], false, false, Cursor(0, 0), Some(Cursor(0, 0)), Between, [])

  /** The complete lines of what the pass has read that are still to be sent. */
  function Unsent(t: Turn): seq<Line>
    requires t.held.Some? && t.pass.Sending? && t.held.value.offset <= t.pass.size <= |t.log|
  {
    Lines(t.log[t.held.value.offset..t.pass.size])
  }

  ghost predicate Reading(t: Turn) {
    !t.done && t.held.Some? && t.pass.Sending? && t.held.value.offset <= t.pass.size <= |t.log|
  }

  ghost predicate Enabled(kind: Line -> Kind, t: Turn, a: Action) {
    match a
    case Grow(_) => !t.exit
    case WriteExit => !t.exit
    case Begin => !t.done && t.pass.Between? && t.held == Some(t.stored)
    case Forward(taken, _) => Reading(t) && Unsent(t) != [] && (kind(Unsent(t)[0]).Event? || taken)
    case Persist => !t.done && t.held.Some?
    case GiveUp => t.pass.Sending? && t.held == Some(t.stored)
    case FirstLook => Reading(t) && Unsent(t) == [] && t.held == Some(t.stored)
    case SecondLook => !t.done && t.pass.Looked? && t.held == Some(t.stored)
    case Crash => t.held.Some?
    case Recover => t.held.None? && !t.done
  }

  function Advanced(c: Cursor, line: Line): Cursor {
    Cursor(c.offset + |line| + 1, c.number + 1)
  }

  ghost function Step(kind: Line -> Kind, t: Turn, a: Action): Turn
    requires Enabled(kind, t, a)
  {
    match a
    case Grow(bytes) => t.(log := t.log + bytes)
    case WriteExit => t.(exit := true)
    case Forward(taken, arrived) =>
      var line, c := Unsent(t)[0], t.held.value;
      var shown := if kind(line).Event? && (taken || arrived) then t.frames + [Frame(c.number + 1, line)] else t.frames;
      t.(frames := shown, held := if taken then Some(Advanced(c, line)) else t.held)
    case Begin => t.(pass := Sending(|t.log|))
    case Persist => t.(stored := t.held.value)
    case GiveUp => t.(pass := Between)
    case FirstLook => t.(pass := if t.exit && t.stored.offset < |t.log| then Between else Looked(t.pass.size, t.exit))
    case SecondLook => if t.exit && t.stored.offset >= t.pass.size then t.(done := true, held := None, pass := Between) else t.(pass := Between)
    case Crash => t.(held := None, pass := Between)
    case Recover => t.(held := Some(t.stored))
  }

  ghost predicate ValidRun(kind: Line -> Kind, t: Turn, acts: seq<Action>)
    decreases |acts|
  {
    acts == [] || (Enabled(kind, t, acts[0]) && ValidRun(kind, Step(kind, t, acts[0]), acts[1..]))
  }

  ghost function Run(kind: Line -> Kind, t: Turn, acts: seq<Action>): Turn
    requires ValidRun(kind, t, acts)
    decreases |acts|
  {
    if acts == [] then t else Run(kind, Step(kind, t, acts[0]), acts[1..])
  }

  // ---- What every step keeps ----

  /** The pair counts the lines before its offset, and the offset is at a line's start. */
  ghost predicate AtLine(log: seq<Byte>, c: Cursor) {
    c.offset <= |log| && Split(log[..c.offset], NEWLINE).rest == [] && |Lines(log[..c.offset])| == c.number
  }

  ghost predicate FramesCarryTheirLine(kind: Line -> Kind, t: Turn) {
    forall f :: f in t.frames ==> 1 <= f.number <= |Lines(t.log)| && f.line == Lines(t.log)[f.number - 1] && kind(f.line).Event?
  }

  /** Every event among the first `n` lines has reached the viewer. */
  ghost predicate Shown(kind: Line -> Kind, log: seq<Byte>, frames: seq<Frame>, n: nat) {
    forall m :: 0 <= m < n && m < |Lines(log)| && kind(Lines(log)[m]).Event? ==> Frame(m + 1, Lines(log)[m]) in frames
  }

  /** The viewer never has a gap: before a frame came, every earlier event's frame had come. */
  ghost predicate NoGaps(kind: Line -> Kind, t: Turn) {
    forall i :: 0 <= i < |t.frames| && t.frames[i].number >= 1 ==> Shown(kind, t.log, t.frames[..i], t.frames[i].number - 1)
  }

  ghost predicate Inv(kind: Line -> Kind, t: Turn) {
    && AtLine(t.log, t.stored)
    && Shown(kind, t.log, t.frames, t.stored.number)
    && (t.held.Some? ==> AtLine(t.log, t.held.value) && Shown(kind, t.log, t.frames, t.held.value.number))
    && FramesCarryTheirLine(kind, t)
    && NoGaps(kind, t)
    && (t.done ==> t.exit)
    && PassOk(t)
  }

  /** The log only grew since a pass took its size; and a first look that saw `exit` saw the whole log forwarded. */
  ghost predicate PassOk(t: Turn) {
    match t.pass
    case Between => true
    case Sending(size) => size <= |t.log| && t.held.Some? && t.held.value.offset <= size
    case Looked(size, saw) => size <= |t.log| && t.held == Some(t.stored) && (saw ==> t.exit && t.stored.offset == |t.log|)
  }

  /** A longer log starts with the same lines, and a cursor stays where it is. */
  lemma LinesGrow(log: seq<Byte>, more: seq<Byte>)
    ensures Lines(log) <= Lines(log + more)
    ensures forall c :: AtLine(log, c) ==> AtLine(log + more, c)
  {
    SplitAppend(log, more, NEWLINE);
    forall c | AtLine(log, c)
      ensures AtLine(log + more, c)
    {
      assert (log + more)[..c.offset] == log[..c.offset];
    }
  }

  /** At a cursor, the lines before it and the lines after it are all the lines there are. */
  lemma CursorCuts(log: seq<Byte>, c: Cursor)
    requires AtLine(log, c)
    ensures Lines(log) == Lines(log[..c.offset]) + Lines(log[c.offset..])
  {
    SplitAppend(log[..c.offset], log[c.offset..], NEWLINE);
    assert log[..c.offset] + log[c.offset..] == log;
    assert [] + log[c.offset..] == log[c.offset..];
  }

  /** The line after a cursor is line number `number + 1`, and the cursor past it is again at a line's start. */
  lemma CursorAdvances(log: seq<Byte>, c: Cursor)
    requires AtLine(log, c) && Lines(log[c.offset..]) != []
    ensures Advanced(c, Lines(log[c.offset..])[0]).offset <= |log|
    ensures c.number < |Lines(log)| && Lines(log)[c.number] == Lines(log[c.offset..])[0]
    ensures AtLine(log, Advanced(c, Lines(log)[c.number]))
    ensures Lines(log[Advanced(c, Lines(log)[c.number]).offset..]) == Lines(log[c.offset..])[1..]
  {
    hide Split;
    CursorCuts(log, c);
    var tail := log[c.offset..];
    var line := Lines(tail)[0];
    var d := Advanced(c, line);
    SplitFirst(tail, NEWLINE);
    TwoSlices(log, c.offset, d.offset);
    ClosedOne(line, NEWLINE);
    PiecesAreUncut(tail, NEWLINE);
    CutAppend(log[..c.offset], line + [NEWLINE]);
  }

  /** The same with the lines of only the first `size` bytes read. */
  lemma CursorAdvancesIn(log: seq<Byte>, size: nat, c: Cursor)
    requires AtLine(log, c) && c.offset <= size <= |log| && Lines(log[c.offset..size]) != []
    ensures Advanced(c, Lines(log[c.offset..size])[0]).offset <= size
    ensures c.number < |Lines(log)| && Lines(log)[c.number] == Lines(log[c.offset..size])[0]
    ensures AtLine(log, Advanced(c, Lines(log)[c.number]))
    ensures Lines(log[Advanced(c, Lines(log)[c.number]).offset..size]) == Lines(log[c.offset..size])[1..]
  {
    hide Split;
    var part := log[..size];
    assert part[..c.offset] == log[..c.offset] && part[c.offset..] == log[c.offset..size];
    CursorAdvances(part, c);
    assert part + log[size..] == log;
    LinesGrow(part, log[size..]);
    var d := Advanced(c, Lines(part)[c.number]);
    assert part[d.offset..] == log[d.offset..size];
  }

  lemma CutAppend(a: seq<Byte>, b: seq<Byte>)
    requires Split(a, NEWLINE).rest == []
    ensures Split(a + b, NEWLINE) == Cut(Lines(a) + Lines(b), Split(b, NEWLINE).rest)
  {
    SplitAppend(a, b, NEWLINE);
    assert [] + b == b;
  }

  lemma ShownGrows(kind: Line -> Kind, log: seq<Byte>, more: seq<Byte>, frames: seq<Frame>, n: nat)
    requires Shown(kind, log, frames, n) && n <= |Lines(log)|
    ensures Shown(kind, log + more, frames, n)
  {
    LinesGrow(log, more);
  }

  lemma GrowKeeps(kind: Line -> Kind, t: Turn, bytes: seq<Byte>)
    requires Inv(kind, t) && !t.exit
    ensures Inv(kind, t.(log := t.log + bytes))
  {
    LinesGrow(t.log, bytes);
    CursorCuts(t.log, t.stored);
    ShownGrows(kind, t.log, bytes, t.frames, t.stored.number);
    if t.held.Some? {
      CursorCuts(t.log, t.held.value);
      ShownGrows(kind, t.log, bytes, t.frames, t.held.value.number);
    }
    forall i | 0 <= i < |t.frames| && t.frames[i].number >= 1
      ensures Shown(kind, t.log + bytes, t.frames[..i], t.frames[i].number - 1)
    {
      assert t.frames[i] in t.frames;
      ShownGrows(kind, t.log, bytes, t.frames[..i], t.frames[i].number - 1);
    }
  }

  /** What was shown stays shown, and a frame for line `n + 1` adds that line. */
  lemma ShownMore(kind: Line -> Kind, log: seq<Byte>, frames: seq<Frame>, n: nat)
    requires Shown(kind, log, frames, n) && n < |Lines(log)|
    ensures Shown(kind, log, frames + [Frame(n + 1, Lines(log)[n])], n + 1)
    ensures forall k: nat :: Shown(kind, log, frames, k) ==> Shown(kind, log, frames + [Frame(n + 1, Lines(log)[n])], k)
  {
    hide Split;
  }

  lemma NoGapsMore(kind: Line -> Kind, t: Turn, f: Frame)
    requires NoGaps(kind, t) && (f.number >= 1 ==> Shown(kind, t.log, t.frames, f.number - 1))
    ensures NoGaps(kind, t.(frames := t.frames + [f]))
  {
    hide Split, Shown;
    var frames := t.frames + [f];
    forall i | 0 <= i < |frames| && frames[i].number >= 1
      ensures Shown(kind, t.log, frames[..i], frames[i].number - 1)
    {
      assert frames[..i] == if i == |t.frames| then t.frames else t.frames[..i];
    }
  }

  /** One more frame, for line `n + 1`, after every event up to line `n` was shown. */
  lemma OneMoreFrame(kind: Line -> Kind, t: Turn, n: nat)
    requires FramesCarryTheirLine(kind, t) && NoGaps(kind, t) && Shown(kind, t.log, t.frames, n)
    requires n < |Lines(t.log)| && kind(Lines(t.log)[n]).Event?
    ensures var u := t.(frames := t.frames + [Frame(n + 1, Lines(t.log)[n])]);
      FramesCarryTheirLine(kind, u) && NoGaps(kind, u) && Shown(kind, u.log, u.frames, n + 1)
      && forall k: nat :: Shown(kind, t.log, t.frames, k) ==> Shown(kind, u.log, u.frames, k)
  {
    hide Split, Shown, NoGaps;
    ShownMore(kind, t.log, t.frames, n);
    NoGapsMore(kind, t, Frame(n + 1, Lines(t.log)[n]));
  }

  lemma ForwardKeeps(kind: Line -> Kind, t: Turn, a: Action)
    requires Inv(kind, t) && a.Forward? && Enabled(kind, t, a)
    ensures Inv(kind, Step(kind, t, a))
  {
    hide Split, NoGaps, FramesCarryTheirLine;
    var c := t.held.value;
    CursorAdvancesIn(t.log, t.pass.size, c);
    if kind(Unsent(t)[0]).Event? && (a.taken || a.arrived) {
      OneMoreFrame(kind, t, c.number);
    } else if a.taken {
      assert Shown(kind, t.log, t.frames, c.number + 1);
    }
    SameLogAndFrames(kind, t.(frames := Step(kind, t, a).frames), Step(kind, t, a));
  }

  /** What `FramesCarryTheirLine` and `NoGaps` say depends on the log and the frames alone. */
  lemma SameLogAndFrames(kind: Line -> Kind, t: Turn, u: Turn)
    requires t.log == u.log && t.frames == u.frames
    ensures FramesCarryTheirLine(kind, t) == FramesCarryTheirLine(kind, u) && NoGaps(kind, t) == NoGaps(kind, u)
  {
  }

  lemma StepKeeps(kind: Line -> Kind, t: Turn, a: Action)
    requires Inv(kind, t) && Enabled(kind, t, a)
    ensures Inv(kind, Step(kind, t, a))
  {
    hide Split, Shown, NoGaps, FramesCarryTheirLine;
    if a.Grow? {
      GrowKeeps(kind, t, a.bytes);
    } else if a.Forward? {
      ForwardKeeps(kind, t, a);
    } else {
      SameLogAndFrames(kind, t, Step(kind, t, a));
    }
  }

  lemma {:induction false} RunKeeps(kind: Line -> Kind, t: Turn, acts: seq<Action>)
    requires Inv(kind, t) && ValidRun(kind, t, acts)
    ensures Inv(kind, Run(kind, t, acts))
    decreases |acts|
  {
    if acts != [] {
      StepKeeps(kind, t, acts[0]);
      RunKeeps(kind, Step(kind, t, acts[0]), acts[1..]);
    }
  }

  lemma FreshKeeps(kind: Line -> Kind)
    ensures Inv(kind, FRESH)
  {
  }

  // ---- Main results ----

  /**
   * Over any run of growth, failed sends, crashes and recoveries: forwarded.json counts the lines
   * before its offset, frame n carries line n every time it is sent, no event before the stored
   * offset was skipped, and the viewer never had a gap.
   */
  lemma ForwardingIsCrashSafe(kind: Line -> Kind, acts: seq<Action>)
    requires ValidRun(kind, FRESH, acts)
    ensures var t := Run(kind, FRESH, acts);
      && t.stored.offset <= |t.log| && t.stored.number == |Lines(t.log[..t.stored.offset])|
      && (forall f :: f in t.frames ==> 1 <= f.number <= |Lines(t.log)| && f.line == Lines(t.log)[f.number - 1])
      && (forall m :: 0 <= m < t.stored.number && m < |Lines(t.log)| && kind(Lines(t.log)[m]).Event? ==> Frame(m + 1, Lines(t.log)[m]) in t.frames)
      && NoGaps(kind, t)
  {
    FreshKeeps(kind);
    RunKeeps(kind, FRESH, acts);
  }

  /** A sweep that first saw no `exit`, and then sees it behind a log longer than what was forwarded. */
  ghost predicate BlindSweep(t: Turn, a: Action) {
    a.SecondLook? && t.pass.Looked? && !t.pass.saw && t.exit && t.pass.size <= t.stored.offset < |t.log|
  }

  ghost predicate NoBlindSweep(kind: Line -> Kind, t: Turn, acts: seq<Action>)
    requires ValidRun(kind, t, acts)
    decreases |acts|
  {
    acts == [] || (!BlindSweep(t, acts[0]) && NoBlindSweep(kind, Step(kind, t, acts[0]), acts[1..]))
  }

  /** `done` is written only over a log forwarded to its end. */
  predicate Whole(t: Turn) {
    t.done ==> t.stored.offset == |t.log|
  }

  lemma StepIsWholeIff(kind: Line -> Kind, t: Turn, a: Action)
    requires Inv(kind, t) && Whole(t) && Enabled(kind, t, a)
    ensures Whole(Step(kind, t, a)) <==> !BlindSweep(t, a)
  {
    hide Split, Shown, NoGaps, FramesCarryTheirLine;
  }

  /** Once `done` is written the log, what was forwarded and `done` stay as they are. */
  lemma {:induction false} DoneStays(kind: Line -> Kind, t: Turn, acts: seq<Action>)
    requires t.done && t.exit && ValidRun(kind, t, acts)
    ensures var u := Run(kind, t, acts); u.done && u.log == t.log && u.stored == t.stored
    decreases |acts|
  {
    if acts != [] {
      assert var u := Step(kind, t, acts[0]); u.done && u.exit && u.log == t.log && u.stored == t.stored;
      hide Step;
      DoneStays(kind, Step(kind, t, acts[0]), acts[1..]);
    }
  }

  lemma DoneIsExited(kind: Line -> Kind, t: Turn)
    requires Inv(kind, t) && t.done
    ensures t.exit
  {
    hide Split, Shown, NoGaps, FramesCarryTheirLine;
  }

  lemma {:induction false} WholeIff(kind: Line -> Kind, t: Turn, acts: seq<Action>)
    requires Inv(kind, t) && Whole(t) && ValidRun(kind, t, acts)
    ensures Whole(Run(kind, t, acts)) <==> NoBlindSweep(kind, t, acts)
    decreases |acts|
  {
    hide Inv, Step;
    if acts != [] {
      StepIsWholeIff(kind, t, acts[0]);
      StepKeeps(kind, t, acts[0]);
      var u := Step(kind, t, acts[0]);
      if Whole(u) {
        WholeIff(kind, u, acts[1..]);
      } else {
        DoneIsExited(kind, u);
        DoneStays(kind, u, acts[1..]);
      }
    }
  }

  /**
   * A turn marked done has had its whole log forwarded, exactly when no sweep of the run first saw no
   * `exit` and then marked a log that had grown past what was forwarded. Then every event has been shown.
   */
  lemma DoneMeansWholeIff(kind: Line -> Kind, acts: seq<Action>)
    requires ValidRun(kind, FRESH, acts)
    ensures var t := Run(kind, FRESH, acts);
      && ((t.done ==> t.stored.offset == |t.log|) <==> NoBlindSweep(kind, FRESH, acts))
      && (t.done && NoBlindSweep(kind, FRESH, acts) ==>
            forall m :: 0 <= m < |Lines(t.log)| && kind(Lines(t.log)[m]).Event? ==> Frame(m + 1, Lines(t.log)[m]) in t.frames)
  {
    FreshKeeps(kind);
    WholeIff(kind, FRESH, acts);
    ForwardingIsCrashSafe(kind, acts);
    var t := Run(kind, FRESH, acts);
    assert t.done && NoBlindSweep(kind, FRESH, acts) ==> t.log[..t.stored.offset] == t.log;
  }

  // ---- Once each ----

  /** The running agent is never behind what it stored, so nothing stored is sent again. */
  ghost predicate Ahead(t: Turn) {
    t.held.Some? ==> t.stored.number <= t.held.value.number && t.stored.offset <= t.held.value.offset
  }

  lemma {:induction false} RunKeepsAhead(kind: Line -> Kind, t: Turn, acts: seq<Action>)
    requires Ahead(t) && ValidRun(kind, t, acts)
    ensures Ahead(Run(kind, t, acts)) && Run(kind, t, acts).stored.number >= t.stored.number
    decreases |acts|
  {
    hide Split;
    if acts != [] {
      assert var u := Step(kind, t, acts[0]); Ahead(u) && u.stored.number >= t.stored.number;
      hide Step;
      RunKeepsAhead(kind, Step(kind, t, acts[0]), acts[1..]);
    }
  }

  /** Through any crashes and recoveries, what forwarded.json counts is not sent again, and the count never falls. */
  lemma StoredIsNotSentAgain(kind: Line -> Kind, acts: seq<Action>, more: seq<Action>, a: Action)
    requires ValidRun(kind, FRESH, acts) && ValidRun(kind, Run(kind, FRESH, acts), more)
    requires a.Forward? && Enabled(kind, Run(kind, Run(kind, FRESH, acts), more), a)
    ensures var t, u := Run(kind, FRESH, acts), Run(kind, Run(kind, FRESH, acts), more);
      t.stored.number <= u.stored.number && forall f :: f in Step(kind, u, a).frames[|u.frames|..] ==> f.number > t.stored.number
  {
    RunKeepsAhead(kind, FRESH, acts);
    RunKeepsAhead(kind, Run(kind, FRESH, acts), more);
    hide Split;
  }

  /** A refused send whose frame arrived all the same, or a death with sent lines not yet in forwarded.json. */
  ghost predicate Unsure(t: Turn, a: Action) {
    (a.Forward? && !a.taken && a.arrived) || (a.Crash? && t.held != Some(t.stored))
  }

  ghost predicate NoneUnsure(kind: Line -> Kind, t: Turn, acts: seq<Action>)
    requires ValidRun(kind, t, acts)
    decreases |acts|
  {
    acts == [] || (!Unsure(t, acts[0]) && NoneUnsure(kind, Step(kind, t, acts[0]), acts[1..]))
  }

  /** Frames only go up, and none is past the running agent's cursor, or the stored one while no agent runs. */
  ghost predicate OnceEach(t: Turn) {
    && (forall i, j :: 0 <= i < j < |t.frames| ==> t.frames[i].number < t.frames[j].number)
    && forall f :: f in t.frames ==> f.number <= if t.held.Some? then t.held.value.number else t.stored.number
  }

  lemma StepIsOnceEach(kind: Line -> Kind, t: Turn, a: Action)
    requires OnceEach(t) && Enabled(kind, t, a) && !Unsure(t, a)
    ensures OnceEach(Step(kind, t, a))
  {
    hide Split;
  }

  lemma {:induction false} RunIsOnceEach(kind: Line -> Kind, t: Turn, acts: seq<Action>)
    requires OnceEach(t) && ValidRun(kind, t, acts) && NoneUnsure(kind, t, acts)
    ensures OnceEach(Run(kind, t, acts))
    decreases |acts|
  {
    hide Split, Step;
    if acts != [] {
      StepIsOnceEach(kind, t, acts[0]);
      RunIsOnceEach(kind, Step(kind, t, acts[0]), acts[1..]);
    }
  }

  /** With no such send or death in the run, refusals and crashes elsewhere included, each event is shown once at most, in order. */
  lemma ShownOnce(kind: Line -> Kind, acts: seq<Action>)
    requires ValidRun(kind, FRESH, acts) && NoneUnsure(kind, FRESH, acts)
    ensures var frames := Run(kind, FRESH, acts).frames; forall i, j :: 0 <= i < j < |frames| ==> frames[i].number < frames[j].number
  {
    RunIsOnceEach(kind, FRESH, acts);
  }

  // ---- The two looks ----

  /**
   * The first look ends the pass only with `exit` there and the log grown since; the second marks the turn done
   * exactly when `exit` is there and what the pass read is all forwarded, whatever came since.
   */
  lemma LooksDecide(kind: Line -> Kind, t: Turn, a: Action)
    requires Inv(kind, t) && Enabled(kind, t, a)
    ensures a.FirstLook? ==>
      var u := Step(kind, t, a); (u.pass.Between? <==> t.exit && t.held.value.offset < |t.log|) && u.(pass := t.pass) == t
    ensures a.SecondLook? ==>
      var u := Step(kind, t, a); (u.done <==> t.exit && t.stored.offset >= t.pass.size) && (u.held.None? <==> u.done) && u.stored == t.stored && u.frames == t.frames
  {
    hide Split, Shown, NoGaps, FramesCarryTheirLine;
  }

  /** A death takes what the agent held and leaves the files; its successor begins where forwarded.json stands, pass or no pass. */
  lemma CrashKeepsFiles(kind: Line -> Kind, t: Turn)
    requires t.held.Some? && !t.done
    ensures var u := Step(kind, t, Crash);
      && u.held.None? && u.(held := t.held, pass := t.pass) == t && Enabled(kind, u, Recover)
      && Step(kind, u, Recover) == t.(held := Some(t.stored), pass := Between)
  {
    hide Split;
  }

  // ---- A blind sweep ----

  lemma RunOf(kind: Line -> Kind, t: Turn, a: Action, rest: seq<Action>) returns (acts: seq<Action>)
    requires Enabled(kind, t, a) && ValidRun(kind, Step(kind, t, a), rest)
    ensures ValidRun(kind, t, acts) && Run(kind, t, acts) == Run(kind, Step(kind, t, a), rest)
  {
    acts := [a] + rest;
    assert acts[1..] == rest;
  }

  /** The turn's last line and `exit` land between the two looks: it is marked done and its viewer never has the line. */
  lemma BlindSweepSkipsAnEvent(kind: Line -> Kind, line: Line) returns (acts: seq<Action>)
    requires NEWLINE !in line && kind(line).Event?
    ensures ValidRun(kind, FRESH, acts)
    ensures var t := Run(kind, FRESH, acts); t.done && Lines(t.log) == [line] && t.frames == []
  {
    var bytes := line + [NEWLINE];
    ClosedOne(line, NEWLINE);
    var t1, log := Step(kind, FRESH, Begin), FRESH.log + bytes;
    assert log == bytes && t1.log[0..0] == [];
    NoLines(t1.log[0..0]);
    hide Split;
    var t2 := Step(kind, t1, FirstLook);
    var t3 := Step(kind, t2, Grow(bytes));
    var t4 := Step(kind, t3, WriteExit);
    acts := RunOf(kind, t4, SecondLook, []);
    acts := RunOf(kind, t3, WriteExit, acts);
    acts := RunOf(kind, t2, Grow(bytes), acts);
    acts := RunOf(kind, t1, FirstLook, acts);
    acts := RunOf(kind, FRESH, Begin, acts);
  }

  /** What a reload replays (`eventsFromLog`): each complete line that is an event, under its line number. */
  function Replay(kind: Line -> Kind, lines: seq<Line>): seq<Frame> {
    if lines == [] then []
    else
      var n := |lines|;
      Replay(kind, lines[..n - 1]) + (if kind(lines[n - 1]).NotAnEvent? then [] else [Frame(n, lines[n - 1])])
  }

  const TURN_EVENTS_MAX := 5000

  /** The newest events a replay keeps. */
  function Newest(frames: seq<Frame>): seq<Frame> {
    if |frames| <= TURN_EVENTS_MAX then frames else frames[|frames| - TURN_EVENTS_MAX..]
  }

  lemma {:induction false} ReplayHoldsTheEvents(kind: Line -> Kind, lines: seq<Line>)
    ensures forall f :: f in Replay(kind, lines) <==> 1 <= f.number <= |lines| && lines[f.number - 1] == f.line && !kind(f.line).NotAnEvent?
    ensures forall i, j :: 0 <= i < j < |Replay(kind, lines)| ==> Replay(kind, lines)[i].number < Replay(kind, lines)[j].number
  {
    if lines != [] {
      var n, init := |lines|, lines[..|lines| - 1];
      ReplayHoldsTheEvents(kind, init);
      var r := Replay(kind, init);
      assert forall i :: 0 <= i < |r| ==> r[i] in r;
    }
  }

  /**
   * Live frames and a reload number the log alike: every frame a viewer got is in the replay or older
   * than all of it, and every replayed event up to the stored line, a reload reply apart, is one the
   * viewer got under the same number.
   */
  lemma ReplayAgreesWithFrames(kind: Line -> Kind, acts: seq<Action>)
    requires ValidRun(kind, FRESH, acts)
    ensures var t := Run(kind, FRESH, acts); var kept := Newest(Replay(kind, Lines(t.log)));
      && (forall f :: f in t.frames ==> f in kept || forall g :: g in kept ==> f.number < g.number)
      && (forall g :: g in kept && g.number <= t.stored.number && !kind(g.line).ReloadReply? ==> g in t.frames)
  {
    hide Split;
    ForwardingIsCrashSafe(kind, acts);
    var t := Run(kind, FRESH, acts);
    var all := Replay(kind, Lines(t.log));
    ReplayHoldsTheEvents(kind, Lines(t.log));
    FreshKeeps(kind);
    RunKeeps(kind, FRESH, acts);
    NewestAreNewer(all);
  }

  /** A replay keeps as many events as it may, in order, and what its cut leaves out is older than all of them. */
  lemma NewestAreNewer(all: seq<Frame>)
    requires forall i, j :: 0 <= i < j < |all| ==> all[i].number < all[j].number
    ensures |Newest(all)| == if |all| < 5000 then |all| else 5000
    ensures forall i, j :: 0 <= i < j < |Newest(all)| ==> Newest(all)[i].number < Newest(all)[j].number
    ensures forall f, g :: f in all && g in Newest(all) ==> f in Newest(all) || f.number < g.number
    ensures forall g :: g in Newest(all) ==> g in all
  {
    var kept := Newest(all);
    var cut := |all| - |kept|;
    forall f, g | f in all && g in kept
      ensures f in kept || f.number < g.number
    {
      var i :| 0 <= i < |all| && all[i] == f;
      var j :| 0 <= j < |kept| && kept[j] == g;
      assert g == all[cut + j];
      if i >= cut {
        assert f == kept[i - cut];
      } else {
        assert all[i].number < all[cut + j].number;
      }
    }
  }

  // ---- The poll pass as the agent runs it ----

  datatype Sent = Sent(turn: Turn, all: bool)

  /** Sending `lines` in order until one is refused: `answer(n)` is what `emit` says to frame n. */
  function SendLines(kind: Line -> Kind, answer: nat -> bool, t: Turn, lines: seq<Line>): (s: Sent)
    requires t.held.Some?
    ensures s.turn.held.Some? && s.turn == t.(frames := s.turn.frames, held := s.turn.held)
    decreases |lines|
  {
    if lines == [] then Sent(t, true)
    else
      var c, line := t.held.value, lines[0];
      if kind(line).Event? && !answer(c.number + 1) then Sent(t, false)
      else
        var frames := if kind(line).Event? then t.frames + [Frame(c.number + 1, line)] else t.frames;
        SendLines(kind, answer, t.(frames := frames, held := Some(Advanced(c, line))), lines[1..])
  }

  /** The send loop's step: stop at a refused frame, else go on behind the line. */
  lemma SendLinesUnfolds(kind: Line -> Kind, answer: nat -> bool, t: Turn, lines: seq<Line>)
    requires t.held.Some?
    ensures var c := t.held.value;
      SendLines(kind, answer, t, lines) ==
        if lines == [] then Sent(t, true)
        else if !kind(lines[0]).Event? then SendLines(kind, answer, t.(held := Some(Advanced(c, lines[0]))), lines[1..])
        else if !answer(c.number + 1) then Sent(t, false)
        else SendLines(kind, answer, t.(frames := t.frames + [Frame(c.number + 1, lines[0])], held := Some(Advanced(c, lines[0]))), lines[1..])
  {
  }

  /** One pass of `poll` over a turn that nobody writes to meanwhile. */
  function PollResult(kind: Line -> Kind, answer: nat -> bool, t: Turn): Turn
    requires t.held == Some(t.stored) && t.stored.offset <= |t.log|
  {
    var reading := t.(pass := Sending(|t.log|));
    var sent := SendLines(kind, answer, reading, Unsent(reading));
    var u := sent.turn.(stored := sent.turn.held.value, pass := Between);
    if sent.all && u.exit && u.stored.offset >= |u.log| then u.(done := true, held := None) else u
  }

  lemma {:induction false} RunAppend(kind: Line -> Kind, t: Turn, a: seq<Action>, b: seq<Action>)
    requires ValidRun(kind, t, a) && ValidRun(kind, Run(kind, t, a), b)
    ensures ValidRun(kind, t, a + b) && Run(kind, t, a + b) == Run(kind, Run(kind, t, a), b)
    decreases |a|
  {
    if a == [] {
      assert a + b == b;
    } else {
      RunAppend(kind, Step(kind, t, a[0]), a[1..], b);
      assert (a + b)[1..] == a[1..] + b;
    }
  }

  lemma {:induction false} SendLinesIsRun(kind: Line -> Kind, answer: nat -> bool, t: Turn) returns (acts: seq<Action>)
    requires Inv(kind, t) && Reading(t)
    ensures ValidRun(kind, t, acts) && Run(kind, t, acts) == SendLines(kind, answer, t, Unsent(t)).turn
    ensures var s := SendLines(kind, answer, t, Unsent(t)); Inv(kind, s.turn) && Reading(s.turn) && (s.all ==> Unsent(s.turn) == [])
    decreases |Unsent(t)|
  {
    acts := [];
    var lines, c := Unsent(t), t.held.value;
    if lines != [] && !(kind(lines[0]).Event? && !answer(c.number + 1)) {
      var a := Forward(true, true);
      var u := Step(kind, t, a);
      CursorAdvancesIn(t.log, t.pass.size, c);
      StepKeeps(kind, t, a);
      hide Inv, Split;
      var more := SendLinesIsRun(kind, answer, u);
      acts := [a] + more;
      assert acts[1..] == more;
    }
  }

  /** The pass from its last line on. */
  lemma LooksAreRun(kind: Line -> Kind, t: Turn, all: bool) returns (acts: seq<Action>)
    requires Reading(t) && t.pass.size == |t.log| && (all ==> Unsent(t) == [])
    ensures ValidRun(kind, t, acts)
    ensures var u := t.(stored := t.held.value, pass := Between);
      Run(kind, t, acts) == if all && u.exit && u.stored.offset >= |u.log| then u.(done := true, held := None) else u
  {
    hide Split;
    var p := Step(kind, t, Persist);
    if !all {
      acts := RunOf(kind, p, GiveUp, []);
    } else {
      var l := Step(kind, p, FirstLook);
      acts := [];
      if l.pass.Looked? { acts := RunOf(kind, l, SecondLook, []); }
      acts := RunOf(kind, p, FirstLook, acts);
    }
    acts := RunOf(kind, t, Persist, acts);
  }

  /** A pass is made of the steps above, so all they keep holds between any two passes, and after a crash inside one. */
  lemma PollIsRun(kind: Line -> Kind, answer: nat -> bool, t: Turn) returns (acts: seq<Action>)
    requires Inv(kind, t) && t.held == Some(t.stored) && !t.done && t.pass.Between?
    ensures ValidRun(kind, t, acts) && Run(kind, t, acts) == PollResult(kind, answer, t)
  {
    StepKeeps(kind, t, Begin);
    hide Split, Inv;
    var reading := Step(kind, t, Begin);
    var sends := SendLinesIsRun(kind, answer, reading);
    var sent := SendLines(kind, answer, reading, Unsent(reading));
    var looks := LooksAreRun(kind, sent.turn, sent.all);
    RunAppend(kind, reading, sends, looks);
    acts := RunOf(kind, t, Begin, sends + looks);
  }

  // ---- What a pass does ----

  /** The frames of the events among the lines from number `from + 1` to number `to`, in order. */
  function EventFrames(kind: Line -> Kind, lines: seq<Line>, from: nat, to: nat): seq<Frame>
    requires from <= to <= |lines|
    decreases |lines| - from
  {
    if from == to then []
    else (if kind(lines[from]).Event? then [Frame(from + 1, lines[from])] else []) + EventFrames(kind, lines, from + 1, to)
  }

  lemma {:induction false} EventFramesHold(kind: Line -> Kind, lines: seq<Line>, from: nat, to: nat)
    requires from <= to <= |lines|
    ensures forall m :: from <= m < to && kind(lines[m]).Event? ==> (Frame(m + 1, lines[m]) in EventFrames(kind, lines, from, to))
    decreases |lines| - from
  {
    if from < to {
      EventFramesHold(kind, lines, from + 1, to);
      assert kind(lines[from]).Event? ==> EventFrames(kind, lines, from, to)[0] == Frame(from + 1, lines[from]);
    }
  }

  /** Where a pass that starts behind `from` lines ends: at the first event refused, or behind the last whole line. */
  ghost predicate EndsAt(kind: Line -> Kind, answer: nat -> bool, lines: seq<Line>, from: nat, end: nat) {
    && from <= end <= |lines|
    && (forall m :: from <= m < end && kind(lines[m]).Event? ==> answer(m + 1))
    && (end < |lines| ==> kind(lines[end]).Event? && !answer(end + 1))
  }

  lemma AtTheEnd(log: seq<Byte>, c: Cursor)
    requires AtLine(log, c) && Lines(log[c.offset..]) == []
    ensures c.number == |Lines(log)| && c.offset + |Split(log, NEWLINE).rest| == |log|
  {
    SplitAppend(log[..c.offset], log[c.offset..], NEWLINE);
    assert log[..c.offset] + log[c.offset..] == log;
    assert [] + log[c.offset..] == log[c.offset..];
    SplitJoins(log[c.offset..], NEWLINE);
  }

  lemma {:induction false} SendLinesEnds(kind: Line -> Kind, answer: nat -> bool, t: Turn)
    requires t.held.Some? && AtLine(t.log, t.held.value)
    ensures var s := SendLines(kind, answer, t, Lines(t.log[t.held.value.offset..])); var c, d, lines := t.held.value, s.turn.held.value, Lines(t.log);
      && AtLine(t.log, d) && EndsAt(kind, answer, lines, c.number, d.number)
      && (s.all <==> d.number == |lines|) && (s.all ==> d.offset + |Split(t.log, NEWLINE).rest| == |t.log|)
      && s.turn.frames == t.frames + EventFrames(kind, lines, c.number, d.number)
    decreases |Lines(t.log[t.held.value.offset..])|
  {
    hide Split, AtLine;
    var c := t.held.value;
    assert c.offset <= |t.log| by { InLog(t.log, c); }
    var rest := Lines(t.log[c.offset..]);
    SendLinesUnfolds(kind, answer, t, rest);
    if rest == [] {
      AtTheEnd(t.log, c);
    } else {
      CursorAdvances(t.log, c);
      if !(kind(rest[0]).Event? && !answer(c.number + 1)) {
        var shown := if kind(rest[0]).Event? then t.frames + [Frame(c.number + 1, rest[0])] else t.frames;
        var u := t.(frames := shown, held := Some(Advanced(c, rest[0])));
        SendLinesEnds(kind, answer, u);
        var d := SendLines(kind, answer, t, rest).turn.held.value;
        assert t.frames + EventFrames(kind, Lines(t.log), c.number, d.number) == u.frames + EventFrames(kind, Lines(t.log), c.number + 1, d.number);
      }
    }
  }

  lemma InLog(log: seq<Byte>, c: Cursor)
    requires AtLine(log, c)
    ensures c.offset <= |log| && c.number <= |Lines(log)|
  {
    CursorCuts(log, c);
  }

  /** `emit` takes the frame of every event behind the first `from` lines. */
  ghost predicate TakesAll(kind: Line -> Kind, answer: nat -> bool, lines: seq<Line>, from: nat) {
    forall m :: from <= m < |lines| && kind(lines[m]).Event? ==> answer(m + 1)
  }

  /**
   * From `t` to `u` the events were shown in order up to the first refused, where the next pass is to begin.
   * With all taken `u` stands behind the last whole line; and the turn is over exactly when, besides, `exit`
   * is there and the log ends where a line does.
   */
  ghost predicate Passed(kind: Line -> Kind, answer: nat -> bool, t: Turn, u: Turn) {
    var lines, rest := Lines(t.log), Split(t.log, NEWLINE).rest;
    && u.log == t.log && u.exit == t.exit
    && AtLine(t.log, u.stored) && EndsAt(kind, answer, lines, t.stored.number, u.stored.number)
    && u.frames == t.frames + EventFrames(kind, lines, t.stored.number, u.stored.number)
    && (TakesAll(kind, answer, lines, t.stored.number) ==> u.stored.number == |lines| && u.stored.offset + |rest| == |t.log|)
    && (u.done <==> t.done || (TakesAll(kind, answer, lines, t.stored.number) && t.exit && rest == []))
    && (!t.done ==> u.held == if u.done then None else Some(u.stored))
  }

  lemma PassForwards(kind: Line -> Kind, answer: nat -> bool, t: Turn)
    requires t.held == Some(t.stored) && AtLine(t.log, t.stored)
    ensures Passed(kind, answer, t, PollResult(kind, answer, t))
  {
    var reading := t.(pass := Sending(|t.log|));
    assert t.log[t.stored.offset..|t.log|] == t.log[t.stored.offset..];
    SendLinesEnds(kind, answer, reading);
    hide Split, AtLine, SendLines;
  }

  /** With every answer true, the pass leaves no event of the log unshown. */
  lemma PassShowsAll(kind: Line -> Kind, answer: nat -> bool, t: Turn)
    requires Inv(kind, t) && t.held == Some(t.stored) && !t.done && TakesAll(kind, answer, Lines(t.log), t.stored.number)
    ensures var u := PollResult(kind, answer, t);
      forall m :: 0 <= m < |Lines(t.log)| && kind(Lines(t.log)[m]).Event? ==> Frame(m + 1, Lines(t.log)[m]) in u.frames
  {
    PassForwards(kind, answer, t);
    var u := PollResult(kind, answer, t);
    EventFramesHold(kind, Lines(t.log), t.stored.number, u.stored.number);
  }

  lemma NoLines(empty: seq<Byte>)
    requires |empty| == 0
    ensures Lines(empty) == []
  {
  }

  /** A turn's log as the agent keeps it: `t.offset` and `t.number` in memory, the rest files in the turn's directory. */
  class TurnTail {
    var log: seq<Byte>
    var exit: bool
    var done: bool
    var forwarded: Cursor
    var offset: nat
    var seqNo: nat
    var swept: bool
    var frames: seq<Frame>

    ghost function State(): Turn
      reads this
    {
      Turn(log, exit, done, forwarded, if swept then None else Some(Cursor(offset, seqNo)), Between, frames)
    }

    /** A turn taken up: by `startTurn` with forwarded.json at zero, or by `doRecover` where the last agent left it. */
    constructor (log: seq<Byte>, exit: bool, forwarded: Cursor, frames: seq<Frame>)
      ensures State() == Turn(log, exit, false, forwarded, Some(forwarded), Between, frames)
    {
      this.log, this.exit, this.done, this.forwarded, this.frames := log, exit, false, forwarded, frames;
      offset, seqNo, swept := forwarded.offset, forwarded.number, false;
    }

    /** `poll`'s send loop: the lines in order, until one is refused. */
    method SendUnsent(kind: Line -> Kind, answer: nat -> bool, lines: seq<Line>) returns (sentBytes: nat, sentAll: bool)
      requires offset <= |log| && !swept && AtLine(log, Cursor(offset, seqNo)) && lines == Lines(log[offset..])
      modifies this`frames, this`seqNo
      ensures SendLines(kind, answer, old(State()).(pass := Sending(|log|)), lines)
           == Sent(old(State()).(pass := Sending(|log|), frames := frames, held := Some(Cursor(offset + sentBytes, seqNo))), sentAll)
      ensures sentBytes == 0 ==> seqNo == old(seqNo)
    {
      hide Split, AtLine, SendLines;
      ghost var t0 := State().(pass := Sending(|log|));
      ghost var cur := t0;
      assert log[offset..|log|] == log[offset..] && lines[0..] == lines;
      var i := 0;
      sentBytes, sentAll := 0, true;
      while i < |lines|
        invariant 0 <= i <= |lines| && offset + sentBytes <= |log|
        invariant sentBytes == 0 ==> seqNo == old(seqNo)
        invariant cur == t0.(frames := frames, held := Some(Cursor(offset + sentBytes, seqNo)))
        invariant AtLine(log, cur.held.value) && lines[i..] == Unsent(cur)
        invariant SendLines(kind, answer, t0, lines) == SendLines(kind, answer, cur, lines[i..])
      {
        var line := lines[i];
        SendLinesUnfolds(kind, answer, cur, lines[i..]);
        CursorAdvancesIn(log, |log|, cur.held.value);
        assert lines[i..][0] == line && lines[i..][1..] == lines[i + 1..];
        if kind(line).Event? {
          if !answer(seqNo + 1) {
            sentAll := false;
            return;
          }
          frames := frames + [Frame(seqNo + 1, line)];
        }
        seqNo := seqNo + 1;
        sentBytes := sentBytes + |line| + 1;
        i := i + 1;
        cur := t0.(frames := frames, held := Some(Cursor(offset + sentBytes, seqNo)));
      }
      SendLinesUnfolds(kind, answer, cur, lines[i..]);
    }

    /** `poll`'s body for one turn. */
    method Poll(kind: Line -> Kind, answer: nat -> bool)
      requires offset <= |log| && !swept && forwarded == Cursor(offset, seqNo) && AtLine(log, forwarded)
      modifies this
      ensures State() == PollResult(kind, answer, old(State()))
      ensures Passed(kind, answer, old(State()), State())
    {
      PassForwards(kind, answer, State());
      hide Split, AtLine, SendLines, Passed;
      var size := |log|;
      ghost var reading := State().(pass := Sending(size));
      assert log[offset..size] == log[offset..];
      assert Unsent(reading) == Lines(log[offset..]);
      if size > offset {
        var cut := Split(log[offset..], NEWLINE);
        var bytes := size - offset - |cut.rest|;
        var sentBytes, sentAll := SendUnsent(kind, answer, cut.pieces);
        if sentBytes > 0 {
          offset := offset + sentBytes;
          forwarded := Cursor(offset, seqNo);
        }
        if !sentAll || sentBytes < bytes {
          return;
        }
      } else {
        NoLines(log[offset..]);
        SendLinesUnfolds(kind, answer, reading, []);
      }
      if exit && offset < |log| {
        return;
      }
      if exit && offset >= size {
        done := true;
        swept := true;
      }
    }
  }
}
