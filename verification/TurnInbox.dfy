/**
 * The inbox of a live turn, between two processes that share only its directory: the runner checks
 * `exit` and `stdin-ended` and writes `<n>.json`, or, for a stop, takes the waiting files out one by one;
 * the turn's wrapper ticks, claims messages by renaming them to `<n>.sent`, writes them to Claude's stdin
 * and, once idle, ends it. Their steps interleave file operation by file operation, and the wrapper may
 * die anywhere.
 */
module TurnInbox {
  import opened LiveTracker
  import Splitting

  /** A waiting file as a stop's drain read it. */
  datatype File = File(name: nat, message: nat)

  /** The runner between its check and its write, or in a drain, with these files still to remove. */
  datatype Runner = Free | Writing | Draining(files: seq<File>)

  /** The wrapper in its tick: the listed names still to claim, a claimed message on its way to stdin, stdin about to end. */
  datatype Wrapper = Waiting | Delivering(names: seq<nat>) | Holding(message: nat, names: seq<nat>) | Ending | Closed | Gone

  /** What happened to stdin, in order. */
  datatype Mark = TickBegan | Claimed(message: nat) | Wrote(message: nat) | StdinEnded

  /**
   * `waiting` and `sent` are the files by number, each with its message; messages are numbered as they are
   * placed. A number is free again once its file is removed, so it may come to name a later message.
   */
  datatype Inbox = Inbox(
    placed: nat, waiting: map<nat, nat>, sent: map<nat, nat>, runner: Runner, wrapper: Wrapper, tracker: Tracker,
    endedFile: bool, exit: bool, swept: bool, carried: seq<nat>, dropped: seq<nat>, marks: seq<Mark>)

  const OPENED := Inbox(0, map[], map[], Free, Waiting, NEW, false, false, false, [], [], [])

  /** `deliverLive` numbers a message one past the highest number there, sent or not. */
  predicate IsNext(n: nat, names: set<nat>) {
    n >= 1 && (forall m :: m in names ==> m < n) && (n == 1 || n - 1 in names)
  }

  ghost predicate Sorted(names: seq<nat>) {
    forall i, j :: 0 <= i < j < |names| ==> names[i] < names[j]
  }

  /** `pendingInbox` and `waitingInbox`: the waiting files by number. */
  ghost predicate Lists(names: seq<nat>, waiting: map<nat, nat>) {
    Sorted(names) && forall n :: n in names <==> n in waiting
  }

  datatype Action =
    | Check                                              // the runner: neither `exit` nor `stdin-ended` is there
    | Place(name: nat)                                   // and then its write
    | Drain(listed: seq<nat>)                            // an interrupt or a clear reads what waits
    | Remove                                             // and removes the next of those files, there or not
    | Tick(events: seq<LogEvent>, at: int, names: seq<nat>)
    | ClaimNext
    | WriteStdin
    | Decide(at: int, recorded: bool)                    // the tick's end; `recorded`: `stdin-ended` could be written
    | EndStdin
    | WriteExit
    | Die
    | CloseDead                                          // the runner writes `exit` for a wrapper that is gone
    | Sweep(names: seq<nat>)

  ghost predicate Enabled(b: Inbox, a: Action) {
    match a
    case Check => b.runner.Free? && !b.exit && !b.endedFile && !b.swept
    case Place(n) => b.runner.Writing? && IsNext(n, b.waiting.Keys + b.sent.Keys)
    case Drain(names) => b.runner.Free? && !b.swept && Lists(names, b.waiting)
    case Remove => b.runner.Draining? && b.runner.files != []
    case Tick(_, _, names) => b.wrapper.Waiting? && Lists(names, b.waiting)
    case ClaimNext => b.wrapper.Delivering? && b.wrapper.names != []
    case WriteStdin => b.wrapper.Holding?
    case Decide(_, _) => b.wrapper == Delivering([])
    case EndStdin => b.wrapper.Ending?
    case WriteExit => b.wrapper.Waiting? || b.wrapper.Closed?
    case Die => !b.wrapper.Gone?
    case CloseDead => b.wrapper.Gone? && !b.exit && b.runner.Free?
    case Sweep(names) => b.runner.Free? && b.exit && !b.swept && Lists(names, b.waiting)
  }

  /** The messages of the listed files. */
  function Messages(names: seq<nat>, waiting: map<nat, nat>): (ms: seq<nat>)
    ensures |ms| == |names|
  {
    seq(|names|, i requires 0 <= i < |names| => if names[i] in waiting then waiting[names[i]] else 0)
  }

  function DrainStep(b: Inbox, names: seq<nat>): Inbox {
    var files := seq(|names|, i requires 0 <= i < |names| => File(names[i], if names[i] in b.waiting then b.waiting[names[i]] else 0));
    if names == [] then b else b.(runner := Draining(files))
  }

  /** A forced removal: the message counts as dropped whether or not its file was still there. */
  function RemoveStep(b: Inbox): Inbox
    requires b.runner.Draining? && b.runner.files != []
  {
    var f, rest := b.runner.files[0], b.runner.files[1..];
    b.(waiting := b.waiting - {f.name}, dropped := b.dropped + [f.message], runner := if rest == [] then Free else Draining(rest))
  }

  function ClaimStep(b: Inbox): Inbox
    requires b.wrapper.Delivering? && b.wrapper.names != []
  {
    var n, names := b.wrapper.names[0], b.wrapper.names[1..];
    if n !in b.waiting then b.(wrapper := Delivering(names))
    else
      var m := b.waiting[n];
      b.(waiting := b.waiting - {n}, sent := b.sent[n := m], wrapper := Holding(m, names), marks := b.marks + [Claimed(m)])
  }

  function WriteStep(b: Inbox): Inbox
    requires b.wrapper.Holding?
  {
    b.(tracker := b.tracker.(answered := false), wrapper := Delivering(b.wrapper.names), marks := b.marks + [Wrote(b.wrapper.message)])
  }

  function DecideStep(b: Inbox, at: int, recorded: bool): Inbox {
    var tracker := AfterCheck(b.tracker, at);
    if IdleNow(b.tracker, at) then b.(tracker := tracker, wrapper := Ending, endedFile := recorded)
    else b.(tracker := tracker, wrapper := Waiting)
  }

  function TickStep(b: Inbox, events: seq<LogEvent>, at: int, names: seq<nat>): Inbox {
    b.(wrapper := Delivering(names), tracker := ReadAll(b.tracker, events, at), marks := b.marks + [TickBegan])
  }

  function EndStep(b: Inbox): Inbox {
    b.(wrapper := Closed, marks := b.marks + [StdinEnded])
  }

  function PlaceStep(b: Inbox, n: nat): Inbox {
    b.(runner := Free, waiting := b.waiting[n := b.placed], placed := b.placed + 1)
  }

  function SweepStep(b: Inbox, names: seq<nat>): Inbox {
    b.(swept := true, waiting := map[], carried := Messages(names, b.waiting))
  }

  ghost function Step(b: Inbox, a: Action): Inbox
    requires Enabled(b, a)
  {
    match a
    case Check => b.(runner := Writing)
    case Place(n) => PlaceStep(b, n)
    case Drain(names) => DrainStep(b, names)
    case Remove => RemoveStep(b)
    case Tick(events, at, names) => TickStep(b, events, at, names)
    case ClaimNext => ClaimStep(b)
    case WriteStdin => WriteStep(b)
    case Decide(at, recorded) => DecideStep(b, at, recorded)
    case EndStdin => EndStep(b)
    case WriteExit => b.(wrapper := Gone, exit := true)
    case Die => b.(wrapper := Gone)
    case CloseDead => b.(exit := true)
    case Sweep(names) => SweepStep(b, names)
  }

  ghost predicate ValidRun(b: Inbox, acts: seq<Action>)
    decreases |acts|
  {
    acts == [] || (Enabled(b, acts[0]) && ValidRun(Step(b, acts[0]), acts[1..]))
  }

  ghost function Run(b: Inbox, acts: seq<Action>): Inbox
    requires ValidRun(b, acts)
    decreases |acts|
  {
    if acts == [] then b else Run(Step(b, acts[0]), acts[1..])
  }

  // ---- What every step keeps ----

  /** The message of a file, waiting or sent. */
  function Holds(b: Inbox, n: nat): nat
    requires n in b.waiting || n in b.sent
  {
    if n in b.waiting then b.waiting[n] else b.sent[n]
  }

  predicate Waits(b: Inbox, m: nat) {
    m in b.waiting.Values
  }

  predicate IsClaimed(b: Inbox, m: nat) {
    m in b.sent.Values
  }

  /** No number is both waiting and sent, and a higher number has a later message. */
  ghost predicate Filed(b: Inbox) {
    && (forall n :: n in b.waiting ==> n !in b.sent && b.waiting[n] < b.placed)
    && (forall n :: n in b.sent ==> b.sent[n] < b.placed)
    && (forall n, k :: n in b.waiting.Keys + b.sent.Keys && k in b.waiting.Keys + b.sent.Keys && n < k ==> Holds(b, n) < Holds(b, k))
  }

  /** Until the sweep each placed message waits, was claimed, or was dropped; a waiting one is neither. */
  ghost predicate Kept(b: Inbox) {
    && (forall m :: m in b.dropped ==> m < b.placed && !Waits(b, m))
    && (!b.swept ==> b.carried == [] && forall m :: 0 <= m < b.placed ==> Waits(b, m) || IsClaimed(b, m) || m in b.dropped)
    && (forall i, j :: 0 <= i < j < |b.dropped| ==> b.dropped[i] != b.dropped[j])
  }

  /** What a drain still has to remove waits under its number, or was claimed from there meanwhile. */
  ghost predicate DrainOk(b: Inbox) {
    b.runner.Draining? ==>
      && !b.swept && b.runner.files != []
      && (forall i, j :: 0 <= i < j < |b.runner.files| ==> b.runner.files[i].name < b.runner.files[j].name)
      && (forall i, j :: 0 <= i < j < |b.runner.files| ==> b.runner.files[i].message < b.runner.files[j].message)
      && (forall i :: 0 <= i < |b.runner.files| ==> FileOk(b, b.runner.files[i]))
  }

  ghost predicate FileOk(b: Inbox, f: File) {
    && f.message !in b.dropped && (f.name in b.waiting || f.name in b.sent) && Holds(b, f.name) == f.message
  }

  function Names(b: Inbox): seq<nat> {
    if b.wrapper.Delivering? || b.wrapper.Holding? then b.wrapper.names else []
  }

  /** No message was written since the last tick began. */
  predicate Unwritten(marks: seq<Mark>) {
    marks == [] || marks[|marks| - 1].TickBegan? || (!marks[|marks| - 1].Wrote? && Unwritten(marks[..|marks| - 1]))
  }

  ghost predicate EndsWell(marks: seq<Mark>) {
    && (forall i, j :: 0 <= i < j < |marks| && marks[i].StdinEnded? ==> !marks[j].Wrote? && !marks[j].Claimed? && !marks[j].StdinEnded?)
    && (forall j :: 0 <= j < |marks| && marks[j].StdinEnded? ==> Unwritten(marks[..j]))
  }

  ghost predicate Stdin(b: Inbox) {
    && EndsWell(b.marks)
    && (StdinEnded in b.marks ==> b.wrapper.Closed? || b.wrapper.Gone?)
    && (b.wrapper.Delivering? && b.tracker.answered ==> Unwritten(b.marks))
    && (b.wrapper.Ending? ==> Unwritten(b.marks))
    && (b.endedFile ==> b.wrapper.Ending? || b.wrapper.Closed? || b.wrapper.Gone?)
  }

  ghost predicate WrittenOnce(b: Inbox) {
    && (forall i, j :: 0 <= i < j < |b.marks| && b.marks[i].Wrote? && b.marks[j].Wrote? ==> b.marks[i].message != b.marks[j].message)
    && (forall i :: 0 <= i < |b.marks| && b.marks[i].Wrote? ==> IsClaimed(b, b.marks[i].message))
    && (b.wrapper.Holding? ==> IsClaimed(b, b.wrapper.message))
    && (b.wrapper.Holding? ==> forall i :: 0 <= i < |b.marks| && b.marks[i].Wrote? ==> b.marks[i].message != b.wrapper.message)
  }

  ghost predicate Swept(b: Inbox) {
    b.swept ==>
      && b.exit && b.runner.Free? && b.waiting == map[]
      && Sorted(b.carried)
      && (forall m :: m in b.carried ==> 0 <= m < b.placed && !IsClaimed(b, m) && m !in b.dropped)
      && (forall m :: 0 <= m < b.placed ==> IsClaimed(b, m) || m in b.carried || m in b.dropped)
  }

  ghost predicate Inv(b: Inbox) {
    && Filed(b) && Kept(b) && DrainOk(b) && Stdin(b) && WrittenOnce(b) && Swept(b) && Sorted(Names(b))
    && (b.exit ==> b.wrapper.Gone?)
  }

  lemma EndsWellGrows(marks: seq<Mark>, m: Mark)
    requires EndsWell(marks)
    requires m.StdinEnded? || m.Wrote? || m.Claimed? ==> StdinEnded !in marks
    requires m.StdinEnded? ==> Unwritten(marks)
    ensures EndsWell(marks + [m])
  {
    var more := marks + [m];
    forall j | 0 <= j < |more| && more[j].StdinEnded?
      ensures Unwritten(more[..j])
    {
      assert more[..j] == if j < |marks| then marks[..j] else marks;
    }
  }

  lemma UnwrittenGrows(marks: seq<Mark>, m: Mark)
    ensures Unwritten(marks + [m]) <==> m.TickBegan? || (!m.Wrote? && Unwritten(marks))
  {
    assert (marks + [m])[..|marks|] == marks;
  }

  /** What is said of stdin asks nothing of the waiting files, and of the claimed ones only that they stay claimed. */
  lemma SameMarks(b: Inbox, d: Inbox)
    requires d.marks == b.marks && d.wrapper == b.wrapper && d.tracker == b.tracker && d.sent == b.sent && d.endedFile == b.endedFile
    ensures Stdin(d) == Stdin(b) && WrittenOnce(d) == WrittenOnce(b)
  {
  }

  /** A waiting message is not a claimed one. */
  lemma WaitsUnclaimed(b: Inbox)
    requires Filed(b)
    ensures forall n :: n in b.waiting ==> !IsClaimed(b, b.waiting[n])
    ensures forall n, k :: n in b.waiting && k in b.waiting && n != k ==> b.waiting[n] != b.waiting[k]
  {
    forall n | n in b.waiting
      ensures !IsClaimed(b, b.waiting[n])
    {
      forall k | k in b.sent
        ensures b.sent[k] != b.waiting[n]
      {
        assert k < n || n < k;
        assert Holds(b, k) != Holds(b, n);
      }
    }
    forall n, k | n in b.waiting && k in b.waiting && n != k
      ensures b.waiting[n] != b.waiting[k]
    {
      assert k < n || n < k;
      assert Holds(b, k) != Holds(b, n);
    }
  }

  lemma PlaceKeeps(b: Inbox, n: nat)
    requires Inv(b) && Enabled(b, Place(n))
    ensures Inv(Step(b, Place(n)))
  {
    var d := Step(b, Place(n));
    SameMarks(b, d);
    hide Stdin, WrittenOnce;
    assert n !in b.waiting.Keys + b.sent.Keys;
    forall m | 0 <= m < d.placed && !d.swept
      ensures Waits(d, m) || IsClaimed(d, m) || m in d.dropped
    {
      if m == b.placed {
        assert d.waiting[n] == m;
      } else if Waits(b, m) {
        var k :| k in b.waiting && b.waiting[k] == m;
        assert d.waiting[k] == m;
      }
    }
    forall m | m in d.dropped
      ensures !Waits(d, m)
    {
      assert m < b.placed && !Waits(b, m);
      forall k | k in d.waiting
        ensures d.waiting[k] != m
      {
        assert k == n || d.waiting[k] == b.waiting[k];
      }
    }
  }

  /** What a drain lists: each file with its own message, in order, none of them dropped. */
  lemma DrainLists(b: Inbox, names: seq<nat>, files: seq<File>)
    requires Filed(b) && Kept(b) && Lists(names, b.waiting)
    requires |files| == |names| && forall i :: 0 <= i < |names| ==> files[i] == File(names[i], if names[i] in b.waiting then b.waiting[names[i]] else 0)
    ensures forall i :: 0 <= i < |files| ==> FileOk(b, files[i])
    ensures forall i, j :: 0 <= i < j < |files| ==> files[i].name < files[j].name && files[i].message < files[j].message
  {
    forall i | 0 <= i < |files|
      ensures names[i] in b.waiting && files[i] == File(names[i], b.waiting[names[i]]) && FileOk(b, files[i])
    {
      assert names[i] in names && names[i] in b.waiting;
      assert Waits(b, b.waiting[names[i]]);
    }
    forall i, j | 0 <= i < j < |files|
      ensures files[i].name < files[j].name && files[i].message < files[j].message
    {
      assert names[i] in b.waiting.Keys + b.sent.Keys && names[j] in b.waiting.Keys + b.sent.Keys;
      assert Holds(b, names[i]) < Holds(b, names[j]);
    }
  }

  lemma DrainKeeps(b: Inbox, names: seq<nat>)
    requires Inv(b) && Enabled(b, Drain(names))
    ensures Inv(Step(b, Drain(names)))
  {
    var d := DrainStep(b, names);
    if names != [] {
      DrainLists(b, names, d.runner.files);
      RunnerOnly(b, d);
      hide Stdin, WrittenOnce, Kept, Filed, FileOk;
    }
  }

  lemma RunnerOnly(b: Inbox, d: Inbox)
    requires d == b.(runner := d.runner) && !b.swept
    ensures Filed(d) == Filed(b) && Kept(d) == Kept(b) && Stdin(d) == Stdin(b) && WrittenOnce(d) == WrittenOnce(b) && Swept(d)
    ensures Names(d) == Names(b) && forall f :: FileOk(d, f) == FileOk(b, f)
  {
    SameMarks(b, d);
    hide Stdin, WrittenOnce;
    assert forall n :: n in b.waiting || n in b.sent ==> Holds(d, n) == Holds(b, n);
  }

  lemma RemoveKeepsFiles(b: Inbox)
    requires Filed(b) && Kept(b) && DrainOk(b) && Enabled(b, Remove)
    ensures Filed(RemoveStep(b)) && Kept(RemoveStep(b))
  {
    var d, f := RemoveStep(b), b.runner.files[0];
    WaitsUnclaimed(b);
    assert FileOk(b, f);
    forall m | m in d.dropped
      ensures m < d.placed && !Waits(d, m)
    {
      assert m in b.dropped ==> !Waits(b, m);
      assert f.name !in b.waiting ==> IsClaimed(b, f.message);
      forall k | k in d.waiting
        ensures d.waiting[k] != m
      {
        assert k != f.name && Waits(b, b.waiting[k]);
      }
    }
    forall m | 0 <= m < d.placed
      ensures Waits(d, m) || IsClaimed(d, m) || m in d.dropped
    {
      if m != f.message && Waits(b, m) {
        var k :| k in b.waiting && b.waiting[k] == m;
        assert k in d.waiting && d.waiting[k] == m;
      }
    }
    RemoveKeepsHolds(b);
  }

  lemma RemoveKeepsHolds(b: Inbox)
    requires Filed(b) && b.runner.Draining? && b.runner.files != []
    ensures Filed(RemoveStep(b))
    ensures forall k :: k in RemoveStep(b).waiting || k in b.sent ==> (k in b.waiting || k in b.sent) && Holds(RemoveStep(b), k) == Holds(b, k)
  {
    var d := RemoveStep(b);
    forall n, k | n in d.waiting.Keys + d.sent.Keys && k in d.waiting.Keys + d.sent.Keys && n < k
      ensures Holds(d, n) < Holds(d, k)
    {
      assert n in b.waiting.Keys + b.sent.Keys && k in b.waiting.Keys + b.sent.Keys;
      assert Holds(b, n) < Holds(b, k);
    }
  }

  lemma RemoveKeepsDrain(b: Inbox)
    requires Filed(b) && DrainOk(b) && Enabled(b, Remove)
    ensures DrainOk(RemoveStep(b))
  {
    var d, files := RemoveStep(b), b.runner.files;
    var rest := files[1..];
    RemoveKeepsHolds(b);
    hide Filed;
    forall i | 0 <= i < |rest|
      ensures FileOk(d, rest[i])
    {
      assert rest[i] == files[i + 1] && FileOk(b, files[i + 1]);
      assert files[0].name < files[i + 1].name && files[0].message < files[i + 1].message;
    }
  }

  lemma RemoveKeeps(b: Inbox)
    requires Inv(b) && Enabled(b, Remove)
    ensures Inv(Step(b, Remove))
  {
    SameMarks(b, RemoveStep(b));
    RemoveKeepsFiles(b);
    RemoveKeepsDrain(b);
    hide Stdin, WrittenOnce, Filed, Kept, FileOk;
  }

  lemma TickKeeps(b: Inbox, a: Action)
    requires Inv(b) && a.Tick? && Enabled(b, a)
    ensures Inv(Step(b, a))
  {
    EndsWellGrows(b.marks, TickBegan);
    hide EndsWell, Unwritten, ReadAll;
    UnwrittenGrows(b.marks, TickBegan);
    SameFiles(b, Step(b, a));
  }

  /** Steps that touch no message file of the runner's. */
  lemma SameFiles(b: Inbox, d: Inbox)
    requires d.waiting == b.waiting && d.sent == b.sent && d.placed == b.placed && d.dropped == b.dropped && d.runner == b.runner
    requires d.swept == b.swept && d.carried == b.carried && (b.exit ==> d.exit)
    ensures Filed(d) == Filed(b) && Kept(d) == Kept(b) && DrainOk(d) == DrainOk(b) && (Swept(b) ==> Swept(d))
  {
    assert forall f :: FileOk(d, f) == FileOk(b, f);
    assert forall n :: n in b.waiting || n in b.sent ==> Holds(d, n) == Holds(b, n);
  }

  lemma ClaimKeeps(b: Inbox)
    requires Inv(b) && Enabled(b, ClaimNext)
    ensures Inv(Step(b, ClaimNext))
  {
    var d, n := Step(b, ClaimNext), b.wrapper.names[0];
    if n !in b.waiting {
      SameFiles(b, d);
      hide EndsWell, Unwritten, Filed, Kept, DrainOk, Swept;
    } else {
      EndsWellGrows(b.marks, Claimed(b.waiting[n]));
      assert Waits(b, b.waiting[n]) && !b.swept;
      hide EndsWell, Unwritten;
      ClaimKeepsFiles(b);
      ClaimKeepsWritten(b);
      hide Filed, Kept, DrainOk, WrittenOnce;
    }
  }

  lemma ClaimMoves(b: Inbox, d: Inbox, n: nat)
    requires Filed(b) && n in b.waiting && d.waiting == b.waiting - {n} && d.sent == b.sent[n := b.waiting[n]]
    ensures forall m :: IsClaimed(d, m) <==> IsClaimed(b, m) || m == b.waiting[n]
    ensures forall m :: Waits(d, m) <==> Waits(b, m) && m != b.waiting[n]
  {
    WaitsUnclaimed(b);
    forall m
      ensures IsClaimed(d, m) <==> IsClaimed(b, m) || m == b.waiting[n]
      ensures Waits(d, m) <==> Waits(b, m) && m != b.waiting[n]
    {
      if IsClaimed(b, m) {
        var k :| k in b.sent && b.sent[k] == m;
        assert k in d.sent && d.sent[k] == m;
      }
      assert n in d.sent && d.sent[n] == b.waiting[n];
      if Waits(b, m) && m != b.waiting[n] {
        var k :| k in b.waiting && b.waiting[k] == m;
        assert k in d.waiting && d.waiting[k] == m;
      }
    }
  }

  lemma ClaimKeepsFiles(b: Inbox)
    requires Filed(b) && Kept(b) && DrainOk(b) && Enabled(b, ClaimNext) && b.wrapper.names[0] in b.waiting && !b.swept
    ensures var d := Step(b, ClaimNext); Filed(d) && Kept(d) && DrainOk(d)
  {
    var d, n := Step(b, ClaimNext), b.wrapper.names[0];
    ClaimMoves(b, d, n);
    forall k | k in d.waiting.Keys + d.sent.Keys
      ensures k in b.waiting.Keys + b.sent.Keys && Holds(d, k) == Holds(b, k)
    {
    }
    hide Waits, IsClaimed;
    assert b.runner.Draining? ==> forall i :: 0 <= i < |b.runner.files| ==> FileOk(b, b.runner.files[i]);
  }

  lemma ClaimKeepsWritten(b: Inbox)
    requires Filed(b) && WrittenOnce(b) && Enabled(b, ClaimNext) && b.wrapper.names[0] in b.waiting
    ensures WrittenOnce(Step(b, ClaimNext))
  {
    var d, n := Step(b, ClaimNext), b.wrapper.names[0];
    ClaimMoves(b, d, n);
    WaitsUnclaimed(b);
    hide Waits, IsClaimed;
    forall i | 0 <= i < |d.marks| && d.marks[i].Wrote?
      ensures IsClaimed(d, d.marks[i].message) && d.marks[i].message != b.waiting[n]
    {
      assert d.marks[i] == b.marks[i];
    }
  }

  lemma WriteKeeps(b: Inbox)
    requires Inv(b) && Enabled(b, WriteStdin)
    ensures Inv(Step(b, WriteStdin))
  {
    EndsWellGrows(b.marks, Wrote(b.wrapper.message));
    SameFiles(b, Step(b, WriteStdin));
    hide EndsWell, Unwritten, Filed, Kept, DrainOk, Swept;
  }

  lemma SweepKeeps(b: Inbox, names: seq<nat>)
    requires Inv(b) && Enabled(b, Sweep(names))
    ensures Inv(Step(b, Sweep(names)))
  {
    var d := Step(b, Sweep(names));
    SameMarks(b, d);
    hide Stdin, WrittenOnce;
    SweptFiles(b, names, d.carried);
    assert forall n :: n in d.sent ==> Holds(d, n) == Holds(b, n);
  }

  lemma SweptFiles(b: Inbox, names: seq<nat>, carried: seq<nat>)
    requires Filed(b) && Kept(b) && !b.swept && Lists(names, b.waiting) && carried == Messages(names, b.waiting)
    ensures Sorted(carried)
    ensures forall m :: m in carried <==> Waits(b, m)
    ensures forall m :: m in carried ==> m < b.placed && !IsClaimed(b, m) && m !in b.dropped
  {
    WaitsUnclaimed(b);
    forall i | 0 <= i < |names|
      ensures names[i] in b.waiting && carried[i] == b.waiting[names[i]]
    {
      assert names[i] in names;
    }
    forall i, j | 0 <= i < j < |carried|
      ensures carried[i] < carried[j]
    {
      assert names[i] in b.waiting.Keys + b.sent.Keys && names[j] in b.waiting.Keys + b.sent.Keys;
      assert Holds(b, names[i]) < Holds(b, names[j]);
    }
    forall m | Waits(b, m)
      ensures m in carried
    {
      var n :| n in b.waiting && b.waiting[n] == m;
      var i :| 0 <= i < |names| && names[i] == n;
      assert carried[i] == m;
    }
  }

  lemma EndKeeps(b: Inbox)
    requires Inv(b) && Enabled(b, EndStdin)
    ensures Inv(Step(b, EndStdin))
  {
    EndsWellGrows(b.marks, StdinEnded);
    SameFiles(b, Step(b, EndStdin));
    hide EndsWell, Unwritten, Filed, Kept, DrainOk, Swept;
  }

  /** Steps that touch no message file and write no mark. */
  lemma QuietKeeps(b: Inbox, a: Action)
    requires Inv(b) && Enabled(b, a)
    requires a.WriteExit? || a.Die? || a.CloseDead?
    ensures Inv(Step(b, a))
  {
    SameFiles(b, Step(b, a));
    hide EndsWell, Unwritten, Filed, Kept, DrainOk, Swept;
  }

  lemma CheckKeeps(b: Inbox)
    requires Inv(b) && Enabled(b, Action.Check)
    ensures Inv(Step(b, Action.Check))
  {
    RunnerOnly(b, Step(b, Action.Check));
    hide Stdin, WrittenOnce, Kept, Filed;
  }

  lemma DecideKeeps(b: Inbox, at: int, recorded: bool)
    requires Inv(b) && Enabled(b, Decide(at, recorded))
    ensures Inv(Step(b, Decide(at, recorded)))
  {
    IdleIsAnswered(b.tracker, at);
    SameFiles(b, Step(b, Decide(at, recorded)));
    hide EndsWell, Unwritten, IdleNow, AfterCheck, Filed, Kept, DrainOk, Swept;
  }

  lemma IdleIsAnswered(t: Tracker, at: int)
    ensures IdleNow(t, at) ==> t.answered
    ensures AfterCheck(t, at).answered == t.answered
  {
  }

  lemma StepKeeps(b: Inbox, a: Action)
    requires Inv(b) && Enabled(b, a)
    ensures Inv(Step(b, a))
  {
    hide Inv, Step;
    match a
    case Check => CheckKeeps(b);
    case Place(n) => PlaceKeeps(b, n);
    case Drain(names) => DrainKeeps(b, names);
    case Remove => RemoveKeeps(b);
    case Tick(_, _, _) => TickKeeps(b, a);
    case ClaimNext => ClaimKeeps(b);
    case WriteStdin => WriteKeeps(b);
    case EndStdin => EndKeeps(b);
    case Sweep(names) => SweepKeeps(b, names);
    case Decide(at, recorded) => DecideKeeps(b, at, recorded);
    case _ => QuietKeeps(b, a);
  }

  lemma {:induction false} RunKeeps(b: Inbox, acts: seq<Action>)
    requires Inv(b) && ValidRun(b, acts)
    ensures Inv(Run(b, acts))
    decreases |acts|
  {
    hide Inv, Step, Enabled;
    if acts != [] {
      StepKeeps(b, acts[0]);
      RunKeeps(Step(b, acts[0]), acts[1..]);
    }
  }

  lemma OpenedKeeps()
    ensures Inv(OPENED)
  {
  }

  // ---- Main results ----

  /**
   * However the two processes interleave and wherever the wrapper dies: until the sweep each placed message
   * waits, was claimed, or was dropped by a stop, and a waiting one is neither of the others; after it each
   * was claimed, dropped, or is carried to the next turn, and a carried one, in the order placed, is neither.
   */
  lemma ClaimedOrCarriedNeverBoth(acts: seq<Action>)
    requires ValidRun(OPENED, acts)
    ensures var b := Run(OPENED, acts);
      && (forall m: nat :: Waits(b, m) || m in b.carried ==> m < b.placed && !IsClaimed(b, m) && m !in b.dropped)
      && (forall m :: 0 <= m < b.placed ==> Waits(b, m) || IsClaimed(b, m) || m in b.dropped || m in b.carried)
      && (b.swept ==> b.waiting == map[]) && (!b.swept ==> b.carried == [])
      && Sorted(b.carried) && forall i, j :: 0 <= i < j < |b.dropped| ==> b.dropped[i] != b.dropped[j]
  {
    OpenedKeeps();
    RunKeeps(OPENED, acts);
    hide Run;
    var b := Run(OPENED, acts);
    WaitsUnclaimed(b);
  }

  // ---- A stop's drain and a claim at once ----

  predicate Both(b: Inbox, m: nat) {
    m in b.dropped && IsClaimed(b, m)
  }

  /** The drain comes to a file that the wrapper has renamed since it was listed. */
  predicate TooLate(b: Inbox, a: Action, m: nat) {
    a.Remove? && b.runner.Draining? && b.runner.files != [] && b.runner.files[0].message == m && b.runner.files[0].name !in b.waiting
  }

  ghost predicate LateIn(b: Inbox, acts: seq<Action>, m: nat)
    requires ValidRun(b, acts)
    decreases |acts|
  {
    acts != [] && (TooLate(b, acts[0], m) || LateIn(Step(b, acts[0]), acts[1..], m))
  }

  lemma BothSteps(b: Inbox, a: Action, m: nat)
    requires Inv(b) && Enabled(b, a)
    ensures Both(Step(b, a), m) <==> Both(b, m) || TooLate(b, a, m)
  {
    WaitsUnclaimed(b);
    if a.Remove? {
      assert FileOk(b, b.runner.files[0]);
    } else if a.ClaimNext? && b.wrapper.names[0] in b.waiting {
      ClaimMoves(b, Step(b, a), b.wrapper.names[0]);
      assert Waits(b, b.waiting[b.wrapper.names[0]]);
    } else {
      assert Step(b, a).sent == b.sent && Step(b, a).dropped == b.dropped;
    }
  }

  lemma {:induction false} BothRuns(b: Inbox, acts: seq<Action>, m: nat)
    requires Inv(b) && ValidRun(b, acts)
    ensures Both(Run(b, acts), m) <==> Both(b, m) || LateIn(b, acts, m)
    decreases |acts|
  {
    hide Inv, Step, Enabled, TooLate, Both;
    if acts != [] {
      BothSteps(b, acts[0], m);
      StepKeeps(b, acts[0]);
      BothRuns(Step(b, acts[0]), acts[1..], m);
    }
  }

  /** A message is both claimed and dropped exactly when a drain came to its file too late: a forced removal does not say so. */
  lemma ClaimedAndDroppedIff(acts: seq<Action>, m: nat)
    requires ValidRun(OPENED, acts)
    ensures m in Run(OPENED, acts).dropped && IsClaimed(Run(OPENED, acts), m) <==> LateIn(OPENED, acts, m)
  {
    OpenedKeeps();
    BothRuns(OPENED, acts, m);
  }

  // ---- Order ----

  /** Messages are claimed oldest first: none waits, or is listed, that is older than a claimed one. */
  ghost predicate OldestFirst(waiting: set<nat>, sent: set<nat>, names: seq<nat>) {
    && (forall n, w :: n in sent && w in waiting ==> n < w)
    && (forall n, m :: n in sent && m in names ==> n < m)
    && (forall w, m :: w in waiting && m in names ==> w in names || m < w)
    && Sorted(names)
  }

  ghost predicate InOrder(b: Inbox) {
    && OldestFirst(b.waiting.Keys, b.sent.Keys, Names(b))
    && (forall i, j :: 0 <= i < j < |b.marks| && b.marks[i].Wrote? && b.marks[j].Wrote? ==> b.marks[i].message < b.marks[j].message)
    && (b.wrapper.Holding? ==> forall i :: 0 <= i < |b.marks| && b.marks[i].Wrote? ==> b.marks[i].message < b.wrapper.message)
    && (forall c: nat, m: nat :: IsClaimed(b, c) && m in b.carried ==> c < m)
  }

  /** A message placed, after a drain, under a number the tick has passed, with later numbers still to come. */
  ghost predicate Overtaken(b: Inbox, a: Action) {
    a.Place? && a.name !in Names(b) && exists m :: m in Names(b) && a.name < m
  }

  ghost predicate NoneOvertaken(b: Inbox, acts: seq<Action>)
    requires ValidRun(b, acts)
    decreases |acts|
  {
    acts == [] || (!Overtaken(b, acts[0]) && NoneOvertaken(Step(b, acts[0]), acts[1..]))
  }

  lemma ClaimKeepsOldest(waiting: set<nat>, sent: set<nat>, names: seq<nat>)
    requires OldestFirst(waiting, sent, names) && names != [] && names[0] in waiting
    ensures OldestFirst(waiting - {names[0]}, sent + {names[0]}, names[1..])
  {
    var n, others := names[0], names[1..];
    forall m | m in others
      ensures n < m && m in names
    {
      var i :| 0 <= i < |others| && others[i] == m;
      assert names[i + 1] == m;
    }
    forall w | w in waiting && w != n
      ensures n < w && (w in names ==> w in others)
    {
      assert n in names;
      if w in names {
        var i :| 0 <= i < |names| && names[i] == w;
        assert others[i - 1] == w;
      }
    }
  }

  lemma PassKeepsOldest(waiting: set<nat>, sent: set<nat>, names: seq<nat>)
    requires OldestFirst(waiting, sent, names) && names != [] && names[0] !in waiting
    ensures OldestFirst(waiting, sent, names[1..])
  {
    forall w | w in waiting && w in names
      ensures w in names[1..]
    {
      var i :| 0 <= i < |names| && names[i] == w;
      assert names[1..][i - 1] == w;
    }
    assert forall m :: m in names[1..] ==> m in names;
  }

  lemma ClaimKeepsOrder(b: Inbox)
    requires Inv(b) && InOrder(b) && Enabled(b, ClaimNext)
    ensures InOrder(Step(b, ClaimNext))
  {
    var d, names := Step(b, ClaimNext), b.wrapper.names;
    var n := names[0];
    if n !in b.waiting {
      PassKeepsOldest(b.waiting.Keys, b.sent.Keys, names);
    } else {
      ClaimKeepsOldest(b.waiting.Keys, b.sent.Keys, names);
      assert d.waiting.Keys == b.waiting.Keys - {n} && d.sent.Keys == b.sent.Keys + {n};
      forall m | IsClaimed(b, m)
        ensures m < b.waiting[n]
      {
        var k :| k in b.sent && b.sent[k] == m;
        assert k in b.sent.Keys && n in b.waiting.Keys;
        assert Holds(b, k) < Holds(b, n);
      }
      assert Waits(b, b.waiting[n]) && !b.swept;
      hide OldestFirst;
      forall i | 0 <= i < |d.marks| && d.marks[i].Wrote?
        ensures d.marks[i].message < b.waiting[n]
      {
        assert d.marks[i] == b.marks[i];
      }
    }
  }

  lemma PlaceKeepsOrder(b: Inbox, n: nat)
    requires Inv(b) && InOrder(b) && Enabled(b, Place(n)) && !Overtaken(b, Place(n))
    ensures InOrder(Step(b, Place(n)))
  {
    var d := Step(b, Place(n));
    assert d.waiting.Keys == b.waiting.Keys + {n};
    assert forall k :: k in b.sent.Keys ==> k < n;
  }

  lemma SweepKeepsOrder(b: Inbox, names: seq<nat>)
    requires Inv(b) && InOrder(b) && Enabled(b, Sweep(names))
    ensures InOrder(Step(b, Sweep(names)))
  {
    var d := Step(b, Sweep(names));
    SweptFiles(b, names, d.carried);
    ClaimedAreOlder(b);
    forall c: nat, m: nat | IsClaimed(d, c) && m in d.carried
      ensures c < m
    {
      assert IsClaimed(b, c) && Waits(b, m);
    }
  }

  lemma RemoveKeepsOrder(b: Inbox)
    requires Inv(b) && InOrder(b) && Enabled(b, Remove)
    ensures InOrder(Step(b, Remove))
  {
    assert Step(b, Remove).waiting.Keys <= b.waiting.Keys;
  }

  lemma StepKeepsOrder(b: Inbox, a: Action)
    requires Inv(b) && InOrder(b) && Enabled(b, a) && !Overtaken(b, a)
    ensures InOrder(Step(b, a))
  {
    hide Inv, InOrder, Step;
    match a
    case Place(n) => PlaceKeepsOrder(b, n);
    case Remove => RemoveKeepsOrder(b);
    case ClaimNext => ClaimKeepsOrder(b);
    case Sweep(names) => SweepKeepsOrder(b, names);
    case _ => QuietKeepsOrder(b, a);
  }

  lemma QuietKeepsOrder(b: Inbox, a: Action)
    requires InOrder(b) && Enabled(b, a) && !a.Place? && !a.Remove? && !a.ClaimNext? && !a.Sweep?
    ensures InOrder(Step(b, a))
  {
    var d := Step(b, a);
    hide IdleNow, AfterCheck, ReadAll;
    assert d.sent == b.sent && d.waiting == b.waiting && d.carried == b.carried;
    assert forall c: nat :: IsClaimed(d, c) == IsClaimed(b, c);
    if a.Tick? {
      assert forall m :: m in a.names <==> m in b.waiting.Keys;
      assert d == TickStep(b, a.events, a.at, a.names);
      assert OldestFirst(b.waiting.Keys, b.sent.Keys, a.names);
    } else if a.WriteStdin? {
      assert d == WriteStep(b);
    } else if a.EndStdin? {
      assert d == EndStep(b);
    } else {
      assert d.marks == b.marks;
      assert d.wrapper == b.wrapper || Names(d) == [];
      assert OldestFirst(b.waiting.Keys, b.sent.Keys, []);
      assert d.wrapper.Holding? ==> d.wrapper == b.wrapper;
    }
  }

  lemma {:induction false} RunKeepsOrder(b: Inbox, acts: seq<Action>)
    requires Inv(b) && InOrder(b) && ValidRun(b, acts) && NoneOvertaken(b, acts)
    ensures InOrder(Run(b, acts))
    decreases |acts|
  {
    hide Inv, InOrder, Step, Enabled, Overtaken;
    if acts != [] {
      StepKeepsOrder(b, acts[0]);
      StepKeeps(b, acts[0]);
      RunKeepsOrder(Step(b, acts[0]), acts[1..]);
    }
  }

  /** stdin gets claimed messages, each once; after its end nothing is written or claimed; and the tick that ends it delivered nothing. */
  lemma StdinIsClosedLateAndOnce(acts: seq<Action>)
    requires ValidRun(OPENED, acts)
    ensures var marks := Run(OPENED, acts).marks;
      && (forall i, j :: 0 <= i < j < |marks| && marks[i].Wrote? && marks[j].Wrote? ==> marks[i].message != marks[j].message)
      && (forall i :: 0 <= i < |marks| && marks[i].Wrote? ==> IsClaimed(Run(OPENED, acts), marks[i].message))
      && (forall i, j :: 0 <= i < j < |marks| && marks[i].StdinEnded? ==> !marks[j].Wrote? && !marks[j].Claimed? && !marks[j].StdinEnded?)
      && (forall j :: 0 <= j < |marks| && marks[j].StdinEnded? ==> Unwritten(marks[..j]))
  {
    OpenedKeeps();
    RunKeeps(OPENED, acts);
    hide Step, Unwritten;
  }

  lemma OrderSays(b: Inbox)
    requires Inv(b) && InOrder(b)
    ensures forall i, j :: 0 <= i < j < |b.marks| && b.marks[i].Wrote? && b.marks[j].Wrote? ==> b.marks[i].message < b.marks[j].message
    ensures forall c: nat, w: nat :: IsClaimed(b, c) && (Waits(b, w) || w in b.carried) ==> c < w
  {
    ClaimedAreOlder(b);
    hide Inv, Waits, IsClaimed;
  }

  lemma ClaimedAreOlder(b: Inbox)
    requires Filed(b) && OldestFirst(b.waiting.Keys, b.sent.Keys, Names(b))
    ensures forall c: nat, w: nat :: IsClaimed(b, c) && Waits(b, w) ==> c < w
  {
    forall c: nat, w: nat | IsClaimed(b, c) && Waits(b, w)
      ensures c < w
    {
      var k :| k in b.sent && b.sent[k] == c;
      var n :| n in b.waiting && b.waiting[n] == w;
      assert k in b.sent.Keys && n in b.waiting.Keys;
      assert Holds(b, k) < Holds(b, n);
    }
  }

  lemma OpenedInOrder()
    ensures InOrder(OPENED)
  {
  }

  /** While no message is overtaken, they are written oldest first, none waits that is older than a claimed one, and the carried ones are the latest. */
  lemma ClaimsAreInOrder(acts: seq<Action>)
    requires ValidRun(OPENED, acts) && NoneOvertaken(OPENED, acts)
    ensures var b := Run(OPENED, acts);
      && (forall i, j :: 0 <= i < j < |b.marks| && b.marks[i].Wrote? && b.marks[j].Wrote? ==> b.marks[i].message < b.marks[j].message)
      && (forall c: nat, w: nat :: IsClaimed(b, c) && (Waits(b, w) || w in b.carried) ==> c < w)
  {
    OpenedKeeps();
    OpenedInOrder();
    hide Inv, InOrder;
    RunKeeps(OPENED, acts);
    RunKeepsOrder(OPENED, acts);
    hide Run;
    OrderSays(Run(OPENED, acts));
  }

  // ---- A whole tick, as `runLive` runs it ----

  /** `deliverInbox`: each listed name claimed and written in turn. */
  ghost function DeliverAll(b: Inbox): (d: Inbox)
    requires b.wrapper.Delivering?
    ensures d.wrapper == Delivering([])
    decreases |b.wrapper.names|
  {
    if b.wrapper.names == [] then b
    else
      var claimed := ClaimStep(b);
      if claimed.wrapper.Delivering? then DeliverAll(claimed) else DeliverAll(WriteStep(claimed))
  }

  /** A tick nobody interrupts. */
  ghost function TickResult(b: Inbox, events: seq<LogEvent>, at: int, names: seq<nat>): Inbox
    requires Enabled(b, Tick(events, at, names))
  {
    var decided := DecideStep(DeliverAll(TickStep(b, events, at, names)), at, true);
    if decided.wrapper.Ending? then EndStep(decided) else decided
  }

  lemma {:induction false} RunAppend(b: Inbox, x: seq<Action>, y: seq<Action>)
    requires ValidRun(b, x) && ValidRun(Run(b, x), y)
    ensures ValidRun(b, x + y) && Run(b, x + y) == Run(Run(b, x), y)
    decreases |x|
  {
    hide Step;
    if x == [] {
      assert x + y == y;
    } else {
      RunAppend(Step(b, x[0]), x[1..], y);
      assert (x + y)[1..] == x[1..] + y;
    }
  }

  lemma RunOne(b: Inbox, a: Action)
    requires Enabled(b, a)
    ensures ValidRun(b, [a]) && Run(b, [a]) == Step(b, a)
  {
    hide Step;
    assert [a][1..] == [];
    assert ValidRun(Step(b, a), []);
  }

  lemma {:induction false} DeliverAllIsRun(b: Inbox) returns (acts: seq<Action>)
    requires b.wrapper.Delivering?
    ensures ValidRun(b, acts) && Run(b, acts) == DeliverAll(b)
    decreases |b.wrapper.names|
  {
    if b.wrapper.names == [] {
      acts := [];
    } else {
      var claimed := Step(b, ClaimNext);
      RunOne(b, ClaimNext);
      var first, next := [ClaimNext], claimed;
      if claimed.wrapper.Holding? {
        next := Step(claimed, WriteStdin);
        RunOne(claimed, WriteStdin);
        RunAppend(b, first, [WriteStdin]);
        first := first + [WriteStdin];
      }
      acts := DeliverAllIsRun(next);
      RunAppend(b, first, acts);
      acts := first + acts;
    }
  }

  /** A whole tick is made of the steps above, so all they keep holds around it and inside it. */
  lemma TickIsRun(b: Inbox, events: seq<LogEvent>, at: int, names: seq<nat>) returns (acts: seq<Action>)
    requires Enabled(b, Tick(events, at, names))
    ensures ValidRun(b, acts) && Run(b, acts) == TickResult(b, events, at, names)
  {
    var tick, decide := Tick(events, at, names), Decide(at, true);
    RunOne(b, tick);
    var delivered := DeliverAll(Step(b, tick));
    var deliveries := DeliverAllIsRun(Step(b, tick));
    RunAppend(b, [tick], deliveries);
    RunOne(delivered, decide);
    RunAppend(b, [tick] + deliveries, [decide]);
    acts := [tick] + deliveries + [decide];
    if Step(delivered, decide).wrapper.Ending? {
      RunOne(Step(delivered, decide), EndStdin);
      RunAppend(b, acts, [EndStdin]);
      acts := acts + [EndStdin];
    }
  }

  // ---- What a tick does ----

  /** What claiming and writing these messages one after the other leaves behind. */
  function Delivered(ms: seq<nat>): seq<Mark> {
    if ms == [] then [] else [Claimed(ms[0]), Wrote(ms[0])] + Delivered(ms[1..])
  }

  ghost predicate ListedWait(b: Inbox) {
    b.wrapper.Delivering? && Sorted(b.wrapper.names) && forall n :: n in b.wrapper.names ==> n in b.waiting
  }

  /** Of a list whose messages wait, the first is claimed and written, and the rest are as before. */
  lemma FirstDelivered(b: Inbox)
    requires ListedWait(b) && b.wrapper.names != []
    ensures var n, next := b.wrapper.names[0], WriteStep(ClaimStep(b)); var m := b.waiting[n];
      && DeliverAll(b) == DeliverAll(next) && ListedWait(next) && next.wrapper.names == b.wrapper.names[1..] && n !in b.wrapper.names[1..]
      && next == b.(waiting := b.waiting - {n}, sent := b.sent[n := m], marks := b.marks + [Claimed(m), Wrote(m)],
                    tracker := b.tracker.(answered := false), wrapper := Delivering(b.wrapper.names[1..]))
  {
    var n := b.wrapper.names[0];
    assert n in b.wrapper.names;
    assert b.marks + [Claimed(b.waiting[n])] + [Wrote(b.waiting[n])] == b.marks + [Claimed(b.waiting[n]), Wrote(b.waiting[n])];
    forall k | k in b.wrapper.names[1..]
      ensures k in b.wrapper.names && k != n
    {
      var i :| 0 <= i < |b.wrapper.names[1..]| && b.wrapper.names[1..][i] == k;
      assert b.wrapper.names[i + 1] == k;
    }
  }

  lemma NoneListed(b: Inbox)
    requires b.wrapper == Delivering([])
    ensures DeliverAll(b) == b
  {
  }

  /** Every listed message that waits is claimed, with its number, and no other. */
  lemma {:induction false} ClaimsTheList(b: Inbox)
    requires ListedWait(b)
    ensures var d, names := DeliverAll(b), b.wrapper.names;
      && (forall n :: n in d.waiting <==> n in b.waiting && n !in names)
      && (forall n :: n in d.waiting ==> d.waiting[n] == b.waiting[n])
      && (forall n :: n in d.sent <==> n in b.sent || n in names)
      && (forall n :: n in d.sent ==> d.sent[n] == if n in names then b.waiting[n] else b.sent[n])
    decreases |b.wrapper.names|
  {
    var names := b.wrapper.names;
    if names != [] {
      FirstDelivered(b);
      ClaimsTheList(WriteStep(ClaimStep(b)));
      hide DeliverAll, Sorted;
      assert forall k :: k in names <==> k == names[0] || k in names[1..];
    }
  }

  lemma FirstMessage(names: seq<nat>, waiting: map<nat, nat>)
    requires names != [] && names[0] in waiting && names[0] !in names[1..]
    ensures Messages(names, waiting) == [waiting[names[0]]] + Messages(names[1..], waiting - {names[0]})
  {
    assert forall i :: 0 <= i < |names[1..]| ==> names[1..][i] in names[1..];
  }

  /** Nothing else changes but the marks and the tracker, which is told of a delivery. */
  lemma {:induction false} ChangesNoMore(b: Inbox)
    requires ListedWait(b)
    ensures var d := DeliverAll(b);
      && d.tracker == (if b.wrapper.names == [] then b.tracker else b.tracker.(answered := false))
      && d == b.(marks := d.marks, waiting := d.waiting, sent := d.sent, tracker := d.tracker, wrapper := Delivering([]))
    decreases |b.wrapper.names|
  {
    if b.wrapper.names != [] {
      FirstDelivered(b);
      ChangesNoMore(WriteStep(ClaimStep(b)));
      hide DeliverAll, ListedWait;
    }
  }

  /** They are written in the list's order, each once. */
  lemma {:induction false} WritesTheList(b: Inbox)
    requires ListedWait(b)
    ensures DeliverAll(b).marks == b.marks + Delivered(Messages(b.wrapper.names, b.waiting))
    decreases |b.wrapper.names|
  {
    var names := b.wrapper.names;
    if names == [] {
      assert Messages(names, b.waiting) == [];
      assert b.marks + [] == b.marks;
    } else {
      FirstDelivered(b);
      var next, m := WriteStep(ClaimStep(b)), b.waiting[names[0]];
      WritesTheList(next);
      hide DeliverAll, Sorted, Messages, ClaimStep, WriteStep, ListedWait;
      var rest := Messages(names[1..], next.waiting);
      FirstMessage(names, b.waiting);
      assert Delivered(Messages(names, b.waiting)) == [Claimed(m), Wrote(m)] + Delivered(rest);
      assert b.marks + [Claimed(m), Wrote(m)] + Delivered(rest) == b.marks + ([Claimed(m), Wrote(m)] + Delivered(rest));
    }
  }

  function Removes(n: nat): seq<Action> {
    if n == 0 then [] else [Remove] + Removes(n - 1)
  }

  function MessagesOf(files: seq<File>): seq<nat> {
    if files == [] then [] else [files[0].message] + MessagesOf(files[1..])
  }

  /** A drain nobody comes in between of drops the message of every file it read, in order, and their files are gone. */
  lemma {:induction false} DrainDropsAll(b: Inbox)
    requires b.runner.Draining? && b.runner.files != []
    ensures ValidRun(b, Removes(|b.runner.files|))
    ensures var d := Run(b, Removes(|b.runner.files|));
      && d.dropped == b.dropped + MessagesOf(b.runner.files)
      && (forall n :: n in d.waiting <==> n in b.waiting && forall f :: f in b.runner.files ==> f.name != n)
      && d == b.(runner := Free, waiting := d.waiting, dropped := d.dropped)
    decreases |b.runner.files|
  {
    var files, acts := b.runner.files, Removes(|b.runner.files|);
    var d := Step(b, Remove);
    assert acts[0] == Remove && acts[1..] == Removes(|files| - 1);
    assert forall f :: f in files <==> f == files[0] || f in files[1..];
    assert b.dropped + [files[0].message] + MessagesOf(files[1..]) == b.dropped + MessagesOf(files);
    if files[1..] == [] {
      assert MessagesOf(files[1..]) == [];
    } else {
      DrainDropsAll(d);
    }
  }

  /**
   * At a tick's end the wrapper waits for its next tick, or, idle, records the end of stdin if it can and ends it,
   * once: from then on it waits for Claude to exit.
   */
  lemma TickEnds(b: Inbox, at: int, recorded: bool)
    requires b.wrapper == Delivering([])
    ensures var d := Step(b, Decide(at, recorded));
      && (if IdleNow(b.tracker, at) then d.wrapper == Ending && d.endedFile == recorded else d.wrapper == Waiting && d.endedFile == b.endedFile)
      && d == b.(wrapper := d.wrapper, endedFile := d.endedFile, tracker := AfterCheck(b.tracker, at))
      && (d.wrapper.Ending? ==> Step(d, EndStdin) == d.(wrapper := Closed, marks := b.marks + [StdinEnded]))
  {
  }

  /** The turn's end as the runner sees it: `exit`, written by the wrapper as its last act or by the runner for a dead one. */
  lemma EndIsWritten(b: Inbox, a: Action)
    requires Enabled(b, a) && (a.WriteExit? || a.Die? || a.CloseDead?)
    ensures var d := Step(b, a); d.wrapper.Gone? && (d.exit <==> b.exit || !a.Die?) && d == b.(wrapper := d.wrapper, exit := d.exit)
    ensures a.Die? && !b.exit && b.runner.Free? ==> Enabled(Step(b, a), CloseDead)
  {
  }

  // ---- The trace of a run ----

  function Deliveries(n: nat, at: int): (ms: seq<Moment>)
    ensures |ms| == n && forall i :: 0 <= i < n ==> ms[i] == Delivery(at)
  {
    seq(n, i => Delivery(at))
  }

  /** What a step tells the wrapper's tracker; `at` is when the tick began. */
  function Told(a: Action, at: int): seq<Moment> {
    match a
    case Tick(events, now, _) => Reads(events, now)
    case WriteStdin => [Delivery(at)]
    case Decide(now, _) => [LiveTracker.Moment.Check(now)]
    case _ => []
  }

  /** What it is told along a run. */
  function TraceOf(acts: seq<Action>, at: int): seq<Moment>
    decreases |acts|
  {
    if acts == [] then []
    else Told(acts[0], at) + TraceOf(acts[1..], if acts[0].Tick? then acts[0].at else at)
  }

  lemma StepTellsTracker(b: Inbox, trace: seq<Moment>, a: Action, at: int)
    requires Enabled(b, a) && b.tracker == After(trace)
    ensures Step(b, a).tracker == After(trace + Told(a, at))
  {
    hide After, ReadAll;
    if a.Tick? {
      ReadAllIsTrace(trace, a.events, a.at);
    } else if a.WriteStdin? {
      OneMoment(trace, Delivery(at));
    } else if a.Decide? {
      OneMoment(trace, LiveTracker.Moment.Check(a.at));
    } else {
      assert trace + Told(a, at) == trace;
    }
  }

  lemma {:induction false} RunTellsTracker(b: Inbox, trace: seq<Moment>, acts: seq<Action>, at: int)
    requires ValidRun(b, acts) && b.tracker == After(trace)
    ensures Run(b, acts).tracker == After(trace + TraceOf(acts, at))
    decreases |acts|
  {
    hide After, Step, Enabled, Told;
    if acts == [] {
      assert trace + TraceOf(acts, at) == trace;
    } else {
      var a := acts[0];
      StepTellsTracker(b, trace, a, at);
      var since := if a.Tick? then a.at else at;
      RunTellsTracker(Step(b, a), trace + Told(a, at), acts[1..], since);
      assert trace + Told(a, at) + TraceOf(acts[1..], since) == trace + TraceOf(acts, at);
    }
  }

  /**
   * However the processes interleave, the wrapper goes on to end stdin at a tick's end exactly when what its
   * ticks read, wrote and asked so far says the turn has been quiet long enough.
   */
  lemma EndsExactlyWhenQuiet(acts: seq<Action>, start: int, at: int, recorded: bool)
    requires ValidRun(OPENED, acts) && Enabled(Run(OPENED, acts), Decide(at, recorded))
    requires Clocked(TraceOf(acts, start) + [LiveTracker.Moment.Check(at)])
    ensures Step(Run(OPENED, acts), Decide(at, recorded)).wrapper.Ending? <==> ClosesNow(TraceOf(acts, start) + [LiveTracker.Moment.Check(at)])
  {
    hide ClosesNow, Clocked, After, TraceOf, Run, ValidRun, Step, IdleNow, Enabled;
    var trace := TraceOf(acts, start);
    FreshTracker();
    RunTellsTracker(OPENED, [], acts, start);
    assert [] + trace == trace;
    ClosesAtTheEnd(trace, at);
    DecideEnds(Run(OPENED, acts), at, recorded);
  }

  lemma FreshTracker()
    ensures OPENED.tracker == After([])
  {
  }

  lemma DecideEnds(b: Inbox, at: int, recorded: bool)
    requires Enabled(b, Decide(at, recorded))
    ensures Step(b, Decide(at, recorded)).wrapper.Ending? <==> IdleNow(b.tracker, at)
  {
  }

  // ---- A drain in the middle of a tick ----

  lemma {:induction false} SentStays(b: Inbox, k: nat)
    requires b.wrapper.Delivering? && k in b.sent && k !in b.waiting
    ensures var d := DeliverAll(b); k in d.sent && d.sent[k] == b.sent[k]
    decreases |b.wrapper.names|
  {
    if b.wrapper.names != [] {
      var claimed := ClaimStep(b);
      SentStays(if claimed.wrapper.Delivering? then claimed else WriteStep(claimed), k);
    }
  }

  /** A tick leaves what it has not listed, and claims what it has. */
  lemma {:induction false} DeliverTakes(b: Inbox, n: nat, k: nat)
    requires b.wrapper.Delivering? && n in b.waiting && n !in b.wrapper.names && k in b.waiting && k in b.wrapper.names
    ensures var d := DeliverAll(b); n in d.waiting && d.waiting[n] == b.waiting[n] && k in d.sent && d.sent[k] == b.waiting[k]
    decreases |b.wrapper.names|
  {
    var claimed := ClaimStep(b);
    var next := if claimed.wrapper.Delivering? then claimed else WriteStep(claimed);
    assert n != b.wrapper.names[0] && n !in b.wrapper.names[1..];
    if k == b.wrapper.names[0] {
      SentStays(next, k);
      DeliverLeaves(next, n);
    } else {
      assert k in b.wrapper.names[1..];
      DeliverTakes(next, n, k);
    }
  }

  lemma {:induction false} DeliverLeaves(b: Inbox, n: nat)
    requires b.wrapper.Delivering? && n in b.waiting && n !in b.wrapper.names
    ensures var d := DeliverAll(b); n in d.waiting && d.waiting[n] == b.waiting[n]
    decreases |b.wrapper.names|
  {
    if b.wrapper.names != [] {
      assert n != b.wrapper.names[0] && n !in b.wrapper.names[1..];
      var claimed := ClaimStep(b);
      DeliverLeaves(if claimed.wrapper.Delivering? then claimed else WriteStep(claimed), n);
    }
  }

  /** Sends up to number `last`, while the wrapper is in its tick. */
  lemma {:induction false} SendsUpTo(b: Inbox, n: nat, last: nat) returns (acts: seq<Action>)
    requires b.runner.Free? && !b.exit && !b.endedFile && !b.swept && n in b.waiting && n <= last
    requires forall k :: k in b.waiting.Keys + b.sent.Keys ==> k <= n
    ensures ValidRun(b, acts)
    ensures var d := Run(b, acts);
      && d == b.(waiting := d.waiting, placed := d.placed)
      && (forall k :: k in b.waiting ==> k in d.waiting && d.waiting[k] == b.waiting[k])
      && last in d.waiting && (n < last ==> d.waiting[last] >= b.placed)
    decreases last - n
  {
    acts := [];
    if n < last {
      var c := Step(b, Action.Check);
      assert IsNext(n + 1, c.waiting.Keys + c.sent.Keys) by { assert n in c.waiting.Keys; }
      var d := Step(c, Place(n + 1));
      assert d.waiting.Keys == b.waiting.Keys + {n + 1};
      var more := SendsUpTo(d, n + 1, last);
      assert n + 1 == last ==> Run(d, more).waiting[last] == d.waiting[last];
      RunOne(b, Action.Check);
      RunOne(c, Place(n + 1));
      RunAppend(b, [Action.Check], [Place(n + 1)]);
      RunAppend(b, [Action.Check] + [Place(n + 1)], more);
      acts := [Action.Check] + [Place(n + 1)] + more;
    }
  }

  /** An overtaken message is passed by: further sends and the rest of the tick claim a later one while it waits. */
  lemma OvertakenCanBePassed(b: Inbox, n: nat) returns (acts: seq<Action>)
    requires Inv(b) && Enabled(b, Place(n)) && Overtaken(b, Place(n))
    ensures var d := Step(b, Place(n));
      ValidRun(d, acts) && exists c: nat, w: nat :: IsClaimed(Run(d, acts), c) && Waits(Run(d, acts), w) && w < c
  {
    var d := Step(b, Place(n));
    var k :| k in Names(b) && n < k;
    assert !d.exit && !d.endedFile && !d.swept by { hide EndsWell, Unwritten; }
    assert d.waiting.Keys == b.waiting.Keys + {n};
    hide Inv, Step;
    acts := SendsUpTo(d, n, k);
    var e := Run(d, acts);
    if e.wrapper.Holding? {
      RunOne(e, WriteStdin);
      RunAppend(d, acts, [WriteStdin]);
      acts := acts + [WriteStdin];
      e := WriteStep(e);
    }
    var deliveries := DeliverAllIsRun(e);
    RunAppend(d, acts, deliveries);
    DeliverTakes(e, n, k);
    var last := DeliverAll(e);
    assert IsClaimed(last, last.sent[k]) && Waits(last, last.waiting[n]);
    acts := acts + deliveries;
  }

  lemma Then(b: Inbox, acts: seq<Action>, a: Action)
    requires ValidRun(b, acts) && Enabled(Run(b, acts), a)
    ensures ValidRun(b, acts + [a]) && Run(b, acts + [a]) == Step(Run(b, acts), a)
  {
    hide Step, Enabled;
    RunOne(Run(b, acts), a);
    RunAppend(b, acts, [a]);
  }

  lemma Sends(b: Inbox, acts: seq<Action>, n: nat) returns (more: seq<Action>)
    requires ValidRun(b, acts) && Enabled(Run(b, acts), Action.Check) && IsNext(n, Run(b, acts).waiting.Keys + Run(b, acts).sent.Keys)
    ensures ValidRun(b, more) && Run(b, more) == PlaceStep(Run(b, acts), n)
  {
    hide IsNext;
    more := acts + [Action.Check];
    Then(b, acts, Action.Check);
    Then(b, more, Place(n));
    more := more + [Place(n)];
  }

  /** One message is sent, listed by a stop's drain, claimed, and then dropped. */
  lemma DrainCanBeLate() returns (acts: seq<Action>)
    ensures ValidRun(OPENED, acts) && LateIn(OPENED, acts, 0)
    ensures var b := Run(OPENED, acts); 0 in b.dropped && IsClaimed(b, 0)
  {
    acts := Sends(OPENED, [], 1);
    hide Run, ValidRun;
    var b := Run(OPENED, acts);
    assert b.waiting == map[1 := 0];
    Then(OPENED, acts, Drain([1]));
    acts := acts + [Drain([1])];
    b := Run(OPENED, acts);
    assert b.runner == Draining([File(1, 0)]);
    Then(OPENED, acts, Tick([], 0, [1]));
    acts := acts + [Tick([], 0, [1])];
    Then(OPENED, acts, ClaimNext);
    acts := acts + [ClaimNext];
    b := Run(OPENED, acts);
    assert b.sent == map[1 := 0] && b.runner == Draining([File(1, 0)]);
    Then(OPENED, acts, Remove);
    acts := acts + [Remove];
    b := Run(OPENED, acts);
    assert 1 in b.sent && b.sent[1] == 0 && b.dropped == [0];
    ClaimedAndDroppedIff(acts, 0);
  }

  lemma TwoWait() returns (acts: seq<Action>)
    ensures ValidRun(OPENED, acts) && Run(OPENED, acts) == OPENED.(placed := 2, waiting := map[1 := 0, 2 := 1])
  {
    acts := Sends(OPENED, [], 1);
    hide Run, ValidRun;
    assert Run(OPENED, acts).waiting.Keys == {1};
    acts := Sends(OPENED, acts, 2);
  }

  /** Two messages listed by a tick and taken out by a stop. */
  lemma TwoDrained() returns (acts: seq<Action>)
    ensures ValidRun(OPENED, acts)
    ensures var b := Run(OPENED, acts);
      b.waiting == map[] && b.sent == map[] && b.runner == Free && b.wrapper == Delivering([1, 2]) && !b.exit && !b.endedFile && !b.swept
  {
    acts := TwoWait();
    hide Run, ValidRun;
    Then(OPENED, acts, Tick([], 0, [1, 2]));
    acts := acts + [Tick([], 0, [1, 2])];
    Then(OPENED, acts, Drain([1, 2]));
    acts := acts + [Drain([1, 2])];
    assert Run(OPENED, acts).runner == Draining([File(1, 0), File(2, 1)]);
    Then(OPENED, acts, Remove);
    acts := acts + [Remove];
    assert Run(OPENED, acts).runner == Draining([File(2, 1)]);
    Then(OPENED, acts, Remove);
    acts := acts + [Remove];
    assert Run(OPENED, acts).waiting == map[];
  }

  /** The tick finds the first gone, and the next send takes its number, ahead of one still listed. */
  lemma DrainCanOvertake() returns (acts: seq<Action>)
    ensures ValidRun(OPENED, acts) && Inv(Run(OPENED, acts)) && Enabled(Run(OPENED, acts), Place(1)) && Overtaken(Run(OPENED, acts), Place(1))
  {
    acts := TwoDrained();
    hide Run, ValidRun, Inv;
    Then(OPENED, acts, ClaimNext);
    acts := acts + [ClaimNext];
    Then(OPENED, acts, Action.Check);
    acts := acts + [Action.Check];
    var b := Run(OPENED, acts);
    assert b.wrapper == Delivering([2]) && b.waiting.Keys + b.sent.Keys == {};
    assert 2 in Names(b);
    OpenedKeeps();
    RunKeeps(OPENED, acts);
  }

  /** The wrapper's side of the directory, and its tracker. */
  class LiveWrapper {
    var waiting: map<nat, nat>
    var sent: map<nat, nat>
    var marks: seq<Mark>
    var endedFile: bool
    var ended: bool
    const tracker: LogTracker

    constructor ()
      ensures waiting == sent == map[] && marks == [] && !endedFile && !ended && fresh(tracker) && tracker.Valid() && tracker.trace == []
    {
      waiting, sent, marks, endedFile, ended := map[], map[], [], false, false;
      tracker := new LogTracker();
    }

    /** The shared state this wrapper sees, the runner's side as in `rest`. */
    ghost function View(rest: Inbox): Inbox
      reads this, tracker
    {
      rest.(waiting := waiting, sent := sent, marks := marks, endedFile := endedFile, tracker := tracker.State(),
            wrapper := if ended then Closed else Waiting)
    }

    /** Each listed message is claimed and written, and the tracker told of each. */
    method DeliverInbox(names: seq<nat>, ghost now: int, ghost rest: Inbox)
      requires !ended && Lists(names, waiting) && tracker.Valid()
      modifies this`waiting, this`sent, this`marks, tracker`answered, tracker`trace
      ensures !ended && endedFile == old(endedFile)
      ensures tracker.Valid() && tracker.trace == old(tracker.trace) + Deliveries(|names|, now)
      ensures View(rest).(wrapper := Delivering([])) == DeliverAll(old(View(rest)).(wrapper := Delivering(names)))
    {
      ghost var b0 := View(rest).(wrapper := Delivering(names));
      hide Delivered, Messages, DeliverAll, After;
      var i := 0;
      assert tracker.trace == old(tracker.trace) + Deliveries(0, now);
      while i < |names|
        invariant 0 <= i <= |names| && !ended && endedFile == old(endedFile)
        invariant ListedWait(View(rest).(wrapper := Delivering(names[i..])))
        invariant tracker.Valid() && tracker.trace == old(tracker.trace) + Deliveries(i, now)
        invariant DeliverAll(b0) == DeliverAll(View(rest).(wrapper := Delivering(names[i..])))
      {
        ghost var left := names[i..];
        assert left[0] == names[i] && left[1..] == names[i + 1..];
        FirstDelivered(View(rest).(wrapper := Delivering(left)));
        var n := names[i];
        if n in waiting {
          var m := waiting[n];
          waiting, sent := waiting - {n}, sent[n := m];
          marks := marks + [Claimed(m)];
          tracker.Delivered(now);
          marks := marks + [Wrote(m)];
        }
        i := i + 1;
        assert Deliveries(i - 1, now) + [Delivery(now)] == Deliveries(i, now);
      }
      assert names[i..] == [];
      NoneListed(View(rest).(wrapper := Delivering([])));
    }

    /** `tick`: what is new in the log, the inbox, and stdin's end once Claude has been quiet long enough. */
    method TickOnce(kind: string -> LogEvent, chunk: string, now: int, names: seq<nat>, ghost rest: Inbox)
      requires !ended && Lists(names, waiting) && tracker.Valid()
      modifies this, tracker
      ensures tracker.Valid()
      ensures tracker.trace == old(tracker.trace) + Reads(Events(kind, Splitting.Split(old(tracker.carry) + chunk, '\n').pieces), now)
        + Deliveries(|names|, now) + [LiveTracker.Moment.Check(now)]
      ensures Clocked(tracker.trace) ==> (ended <==> ClosesNow(tracker.trace))
      ensures waiting == map[]
      ensures marks == old(marks) + [TickBegan] + Delivered(Messages(names, old(waiting))) + if ended then [StdinEnded] else []
      ensures View(rest) == TickResult(old(View(rest)), Events(kind, Splitting.Split(old(tracker.carry) + chunk, '\n').pieces), now, names)
    {
      hide DeliverAll, ReadAll, ClosesNow, Clocked, After, Messages, Delivered;
      tracker.Feed(kind, chunk, now);
      marks := marks + [TickBegan];
      ghost var listed := View(rest).(wrapper := Delivering(names));
      ClaimsTheList(listed);
      WritesTheList(listed);
      DeliverInbox(names, now, rest);
      var idle := tracker.Idle(now);
      if !idle {
        return;
      }
      ended := true;
      endedFile := true;
      marks := marks + [StdinEnded];
    }
  }
}
