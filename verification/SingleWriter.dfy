/** At most one process works on a chat's session, and nothing starts while the terminal has it. */
module SingleWriter {
  import opened PaneClaim
  import opened ChatRunner

  /** At most one start in progress or turn without `exit`; a turn being launched is both, and counts once. */
  ghost predicate OneWriter(c: Chat) {
    && (forall i, j :: 0 <= i < j < |c.active| ==> c.active[i].exit || c.active[j].exit)
    && (c.start.Preparing? ==> forall i :: 0 <= i < |c.active| ==> c.active[i].exit)
    && (c.start.Launching? ==> forall i :: 0 <= i < |c.active| ==> c.active[i].exit || c.active[i].job == c.start.job)
  }

  /**
   * A turn runs behind a finished one that no sweep has taken yet: the state `stillRunning(activeFor(chat))`
   * does not see. Only a compaction can make it, since every other start waits for the map to be empty.
   */
  ghost predicate HiddenRunning(c: Chat) {
    c.start == Idle && !FirstRunning(c) && exists i :: 0 <= i < |c.active| && !c.active[i].exit
  }

  /** The one kind of step that can put a second writer on the session. */
  ghost predicate BlindCompact(c: Chat, a: Action) {
    a.Compact? && CompactTaken(c) && HiddenRunning(c)
  }

  /** Turning `exit` on, or changing nothing but other fields, keeps one writer. */
  lemma FewerWriters(c: Chat, d: Chat)
    requires OneWriter(c) && |d.active| == |c.active|
    requires d.start == c.start || d.start == Idle
    requires forall i :: 0 <= i < |c.active| ==> d.active[i].job == c.active[i].job && (c.active[i].exit ==> d.active[i].exit)
    ensures OneWriter(d)
  {
  }

  /** A queued start waits for an empty map. */
  lemma StartNextKeepsOneWriter(c: Chat)
    requires OneWriter(c)
    ensures OneWriter(StartNext(c)) && OneWriter(Unpark(c))
  {
    FewerWriters(c, MarkKnown(c.(parked := false)));
  }

  lemma SendKeepsOneWriter(c: Chat, person: bool, live: bool, fits: bool)
    requires OneWriter(c)
    ensures OneWriter(SendStep(c, person, live, fits))
  {
    var job := Job(|c.accepted|, person, false, live);
    match SendPlace(c, live, fits)
    case IntoTurn => FewerWriters(c, SendStep(c, person, live, fits));
    case IntoQueue => {
      FewerWriters(c, Accept(c, job).(queue := c.queue + [job]));
      StartNextKeepsOneWriter(Accept(c, job).(queue := c.queue + [job]));
    }
    case _ =>
  }

  lemma RemovedKeepsOneWriter(c: Chat, i: nat)
    requires OneWriter(c) && i < |c.active|
    ensures OneWriter(Removed(c, i))
  {
  }

  lemma RestartKeepsOneWriter(c: Chat, a: Action)
    requires OneWriter(c) && a.Restart? && Enabled(c, a)
    ensures OneWriter(Step(c, a))
  {
    var d := Step(c, a);
    forall i, j | 0 <= i < j < |d.active|
      ensures d.active[i].exit || d.active[j].exit
    {
      assert a.order[i] != a.order[j];
      assert c.active[a.order[i]].exit || c.active[a.order[j]].exit;
    }
  }

  lemma CompactKeepsOneWriterIff(c: Chat)
    requires OneWriter(c)
    ensures OneWriter(CompactStep(c)) <==> !(CompactTaken(c) && HiddenRunning(c))
  {
    var d := CompactStep(c);
    if CompactTaken(c) && HiddenRunning(c) {
      var i :| 0 <= i < |c.active| && !c.active[i].exit;
      assert d.start.Preparing? && !d.active[i].exit;
    }
  }

  /** Each turn keeps its job, no `exit` is taken back, and nothing is started. */
  ghost predicate OnlyQuieter(c: Chat, d: Chat) {
    && |d.active| == |c.active|
    && (d.start == c.start || d.start == Idle)
    && forall i :: 0 <= i < |c.active| ==> d.active[i].job == c.active[i].job && (c.active[i].exit ==> d.active[i].exit)
  }

  ghost predicate OnOneTurn(a: Action) {
    a.Claim? || a.EndInput? || a.Exit? || a.Cancel? || a.Drain? || a.Steer?
  }

  lemma TurnStepIsQuiet(c: Chat, a: Action)
    requires Enabled(c, a) && OnOneTurn(a)
    ensures OnlyQuieter(c, Step(c, a))
  {
    hide SendStep, CompactStep, PreparedStep, StartNext, Unpark, Removed, Restarted, DropAll, LaunchedStep;
  }

  lemma ChatStepIsQuiet(c: Chat, a: Action)
    requires Enabled(c, a) && !OnOneTurn(a)
    requires !a.Send? && !a.Compact? && !a.Prepared? && !a.ResumeQueue? && !a.Done? && !a.Restart?
    ensures OnlyQuieter(c, Step(c, a))
  {
    hide SendStep, CompactStep, PreparedStep, StartNext, Unpark, Removed, Restarted, DrainStep, SteerStep, Set;
  }

  lemma QuietStep(c: Chat, a: Action)
    requires Enabled(c, a)
    requires !a.Send? && !a.Compact? && !a.Prepared? && !a.ResumeQueue? && !a.Done? && !a.Restart?
    ensures OnlyQuieter(c, Step(c, a))
  {
    hide Step;
    if OnOneTurn(a) {
      TurnStepIsQuiet(c, a);
    } else {
      ChatStepIsQuiet(c, a);
    }
  }

  /** A step keeps one writer exactly when it is not a blind compaction. */
  lemma StepKeepsOneWriterIff(c: Chat, a: Action)
    requires OneWriter(c) && Enabled(c, a)
    ensures OneWriter(Step(c, a)) <==> !BlindCompact(c, a)
  {
    hide SendStep, CompactStep, StartNext, Unpark, Removed, Restarted, HiddenRunning;
    match a
    case Send(person, live, fits) => SendKeepsOneWriter(c, person, live, fits);
    case Compact => CompactKeepsOneWriterIff(c);
    case Prepared =>
    case ResumeQueue => StartNextKeepsOneWriter(c);
    case Done(i) => {
      RemovedKeepsOneWriter(c, i);
      StartNextKeepsOneWriter(Removed(c, i));
    }
    case Restart(_, _, _, _) => RestartKeepsOneWriter(c, a);
    case _ => {
      QuietStep(c, a);
      FewerWriters(c, Step(c, a));
    }
  }

  ghost predicate OneWriterThroughout(c: Chat, acts: seq<Action>)
    requires ValidRun(c, acts)
    decreases |acts|
  {
    OneWriter(c) && (acts == [] || OneWriterThroughout(Step(c, acts[0]), acts[1..]))
  }

  ghost predicate NoBlindCompact(c: Chat, acts: seq<Action>)
    requires ValidRun(c, acts)
    decreases |acts|
  {
    acts == [] || (!BlindCompact(c, acts[0]) && NoBlindCompact(Step(c, acts[0]), acts[1..]))
  }

  /**
   * A chat has one writer in every state of a run exactly when no compaction of the run was taken while
   * a turn ran behind an unswept one. Sends, queue starts, sweeps, stops, claims and crashes never break it.
   */
  lemma {:induction false} OneWriterIffNoBlindCompact(c: Chat, acts: seq<Action>)
    requires OneWriter(c) && ValidRun(c, acts)
    ensures OneWriterThroughout(c, acts) <==> NoBlindCompact(c, acts)
    decreases |acts|
  {
    if acts != [] {
      StepKeepsOneWriterIff(c, acts[0]);
      if OneWriter(Step(c, acts[0])) {
        OneWriterIffNoBlindCompact(Step(c, acts[0]), acts[1..]);
      }
    }
  }

  /** A first turn over but unswept, and a compaction running behind it: two compactions in a row get there. */
  const BEHIND := Chat(
    [Job(0, true, false, false), Job(1, false, true, false)], [Job(0, true, false, false), Job(1, false, true, false)], Idle,
    [Turn(Job(0, true, false, false), false, false, true, false, false, []), Turn(Job(1, false, true, false), false, false, false, false, false, [])],
    [], false, Free, false, false, [], [])

  lemma BehindIsReached() returns (acts: seq<Action>)
    ensures ValidRun(EMPTY, acts) && Run(EMPTY, acts) == BEHIND
  {
    var c1 := Step(EMPTY, Send(true, false, false));
    var c2 := Step(c1, Prepared);
    var c3 := Step(c2, Launched(true));
    var c4 := Step(c3, Exit(0));
    var c5 := Step(c4, Compact);
    var c6 := Step(c5, Prepared);
    var c7 := Step(c6, Launched(true));
    assert c7 == BEHIND;
    acts := RunOf(c6, Launched(true), []);
    acts := RunOf(c5, Prepared, acts);
    acts := RunOf(c4, Compact, acts);
    acts := RunOf(c3, Exit(0), acts);
    acts := RunOf(c2, Launched(true), acts);
    acts := RunOf(c1, Prepared, acts);
    acts := RunOf(EMPTY, Send(true, false, false), acts);
  }

  /** From there a further compaction is taken, and two writers are on the session. */
  lemma TwoCompactionsCanRunAtOnce()
    ensures OneWriter(BEHIND) && CompactTaken(BEHIND) && !OneWriter(CompactStep(BEHIND))
  {
    assert !BEHIND.active[1].exit;
    assert HiddenRunning(BEHIND);
    CompactKeepsOneWriterIff(BEHIND);
  }

  lemma RunOf(c: Chat, a: Action, rest: seq<Action>) returns (acts: seq<Action>)
    requires Enabled(c, a) && ValidRun(Step(c, a), rest)
    ensures ValidRun(c, acts) && Run(c, acts) == Run(Step(c, a), rest)
  {
    acts := [a] + rest;
    assert acts[1..] == rest;
  }

  // ---- The terminal and the runner ----

  ghost predicate Starts(c: Chat, a: Action)
    requires Enabled(c, a)
  {
    Step(c, a).start.Preparing? && Step(c, a).start != c.start
  }

  ghost predicate Claims(c: Chat, a: Action)
    requires Enabled(c, a)
  {
    a.ClaimResume? && Step(c, a) != c
  }

  lemma StartNextStartsFree(c: Chat)
    ensures StartNext(c).start != c.start ==> StartNext(c).start.Preparing? && c.start == Idle && !c.hold && c.pane == Free && !c.parked && !c.clearing && c.active == []
  {
  }

  /** No step starts a turn while the pane claim or a resume hold stands, or another start is under way. */
  lemma NothingStartsUnderAClaim(c: Chat, a: Action)
    requires Enabled(c, a) && Starts(c, a)
    ensures c.pane == Free && !c.hold && c.start == Idle
  {
    match a
    case Send(person, live, fits) =>
    case ResumeQueue => StartNextStartsFree(MarkKnown(c.(parked := false)));
    case Done(i) => StartNextStartsFree(Removed(c, i));
    case _ =>
  }

  /** A claim that succeeds while a turn starts or runs. */
  ghost predicate Meets(c: Chat, a: Action)
    requires Enabled(c, a)
  {
    Claims(c, a) && (c.start != Idle || exists i :: 0 <= i < |c.active| && !c.active[i].exit)
  }

  ghost predicate NoneMeets(c: Chat, acts: seq<Action>)
    requires ValidRun(c, acts)
    decreases |acts|
  {
    acts == [] || (!Meets(c, acts[0]) && NoneMeets(Step(c, acts[0]), acts[1..]))
  }

  /** A claim meets the compaction that runs behind a finished, unswept turn. */
  lemma ClaimCanMeetATurn() returns (acts: seq<Action>)
    ensures ValidRun(EMPTY, acts) && !NoneMeets(EMPTY, acts)
  {
    var first := BehindIsReached();
    assert !BEHIND.active[1].exit;
    assert Meets(BEHIND, ClaimResume);
    assert [ClaimResume][1..] == [];
    assert ValidRun(BEHIND, [ClaimResume]) && !NoneMeets(BEHIND, [ClaimResume]);
    acts := first + [ClaimResume];
    Joined(EMPTY, first, [ClaimResume]);
  }

  /** What follows a run goes on from where it ended. */
  lemma {:induction false} Joined(c: Chat, a: seq<Action>, b: seq<Action>)
    requires ValidRun(c, a) && ValidRun(Run(c, a), b)
    ensures ValidRun(c, a + b) && Run(c, a + b) == Run(Run(c, a), b)
    ensures NoneMeets(c, a + b) <==> NoneMeets(c, a) && NoneMeets(Run(c, a), b)
    decreases |a|
  {
    hide Step, Enabled, Meets;
    if a == [] {
      assert a + b == b;
    } else {
      Joined(Step(c, a[0]), a[1..], b);
      assert (a + b)[1..] == a[1..] + b;
    }
  }

  /** A compaction taken over a finished turn that its sweep has not taken out of the map. */
  ghost predicate EarlyCompact(c: Chat, a: Action) {
    a.Compact? && CompactTaken(c) && c.active != []
  }

  ghost predicate NoEarlyCompact(c: Chat, acts: seq<Action>)
    requires ValidRun(c, acts)
    decreases |acts|
  {
    acts == [] || (!EarlyCompact(c, acts[0]) && NoEarlyCompact(Step(c, acts[0]), acts[1..]))
  }

  /** At most one turn is in the map, and a start waits for an empty one, so nothing is ever hidden. */
  ghost predicate Alone(c: Chat) {
    && |c.active| <= 1
    && (c.start.Preparing? ==> c.active == [])
    && (c.start.Launching? ==> forall i :: 0 <= i < |c.active| ==> c.active[i].job == c.start.job)
  }

  lemma AloneClaims(c: Chat, a: Action)
    requires Alone(c) && Enabled(c, a)
    ensures !Meets(c, a)
  {
    if a.ClaimResume? { assert Step(c, a) == ClaimStep(c); }
  }

  lemma AloneStarts(c: Chat, a: Action)
    requires Alone(c) && Enabled(c, a) && !EarlyCompact(c, a)
    requires a.Send? || a.ResumeQueue? || a.Compact?
    ensures Alone(Step(c, a))
  {
  }

  lemma AloneTurns(c: Chat, a: Action)
    requires Alone(c) && Enabled(c, a) && (a.Prepared? || a.Done? || a.Restart?)
    ensures Alone(Step(c, a))
  {
  }

  lemma StepStaysAlone(c: Chat, a: Action)
    requires Alone(c) && Enabled(c, a) && !EarlyCompact(c, a)
    ensures Alone(Step(c, a)) && !Meets(c, a)
  {
    AloneClaims(c, a);
    hide Step, Meets, EarlyCompact;
    if a.Send? || a.ResumeQueue? || a.Compact? {
      AloneStarts(c, a);
    } else if a.Prepared? || a.Done? || a.Restart? {
      AloneTurns(c, a);
    } else {
      QuietStep(c, a);
    }
  }

  /** Some continuation, with no further compaction in it, has a claim that meets a turn. */
  ghost predicate CanMeet(c: Chat) {
    exists acts :: ValidRun(c, acts) && Compact !in acts && !NoneMeets(c, acts)
  }

  ghost predicate NeverCanMeet(c: Chat, acts: seq<Action>)
    requires ValidRun(c, acts)
    decreases |acts|
  {
    !CanMeet(c) && (acts == [] || NeverCanMeet(Step(c, acts[0]), acts[1..]))
  }

  lemma {:induction false} AloneMeetsNone(c: Chat, acts: seq<Action>)
    requires Alone(c) && ValidRun(c, acts) && NoEarlyCompact(c, acts)
    ensures NoneMeets(c, acts) && Alone(Run(c, acts))
    decreases |acts|
  {
    hide Step, Enabled, Meets, Alone, EarlyCompact;
    if acts != [] {
      StepStaysAlone(c, acts[0]);
      AloneMeetsNone(Step(c, acts[0]), acts[1..]);
    }
  }

  lemma {:induction false} UncompactedIsNotEarly(c: Chat, acts: seq<Action>)
    requires ValidRun(c, acts) && Compact !in acts
    ensures NoEarlyCompact(c, acts)
    decreases |acts|
  {
    hide Step, Enabled;
    if acts != [] {
      assert acts[0] in acts;
      UncompactedIsNotEarly(Step(c, acts[0]), acts[1..]);
    }
  }

  lemma AloneCannotMeet(c: Chat)
    requires Alone(c)
    ensures !CanMeet(c)
  {
    forall acts | ValidRun(c, acts) && Compact !in acts
      ensures NoneMeets(c, acts)
    {
      UncompactedIsNotEarly(c, acts);
      AloneMeetsNone(c, acts);
    }
  }

  /** An early compaction comes up behind the turn it was taken over, and a claim, which looks at that turn only, meets it. */
  lemma EarlyCanMeet(c: Chat)
    requires EarlyCompact(c, Compact)
    ensures CanMeet(Step(c, Compact))
  {
    var c1 := Step(c, Compact);
    var c2 := Step(c1, Prepared);
    var c3 := Step(c2, Launched(true));
    assert !c3.active[|c.active|].exit && c3.active[0] == c.active[0];
    assert Meets(c3, ClaimResume);
    var acts := [Prepared, Launched(true), ClaimResume];
    assert acts[1..] == [Launched(true), ClaimResume] && acts[1..][1..] == [ClaimResume] && [ClaimResume][1..] == [];
    hide Step, Meets;
    assert ValidRun(c3, [ClaimResume]) && !NoneMeets(c3, [ClaimResume]);
    assert ValidRun(c2, acts[1..]) && !NoneMeets(c2, acts[1..]);
    assert ValidRun(c1, acts) && !NoneMeets(c1, acts);
  }

  lemma {:induction false} NeverCanMeetIff(c: Chat, acts: seq<Action>)
    requires Alone(c) && ValidRun(c, acts)
    ensures NeverCanMeet(c, acts) <==> NoEarlyCompact(c, acts)
    decreases |acts|
  {
    hide Alone, CanMeet, EarlyCompact, Step, Enabled;
    AloneCannotMeet(c);
    if acts != [] {
      if EarlyCompact(c, acts[0]) {
        EarlyIsCompact(c, acts[0]);
        EarlyCanMeet(c);
      } else {
        StepStaysAlone(c, acts[0]);
        NeverCanMeetIff(Step(c, acts[0]), acts[1..]);
      }
    }
  }

  lemma EarlyIsCompact(c: Chat, a: Action)
    requires EarlyCompact(c, a)
    ensures a == Compact && EarlyCompact(c, Compact)
  {
  }

  /**
   * While each compaction of a run was taken with an empty map, no claim meets a turn that starts or runs.
   * And only then: from a compaction taken over a finished, unswept turn a claim can come to meet it.
   */
  lemma ClaimsMeetNoTurnIff(acts: seq<Action>)
    requires ValidRun(EMPTY, acts)
    ensures NoEarlyCompact(EMPTY, acts) ==> NoneMeets(EMPTY, acts)
    ensures NoEarlyCompact(EMPTY, acts) <==> NeverCanMeet(EMPTY, acts)
  {
    NeverCanMeetIff(EMPTY, acts);
    if NoEarlyCompact(EMPTY, acts) { AloneMeetsNone(EMPTY, acts); }
  }

  lemma {:induction false} AloneHasOneWriter(c: Chat, acts: seq<Action>)
    requires Alone(c) && ValidRun(c, acts) && NoEarlyCompact(c, acts)
    ensures OneWriterThroughout(c, acts)
    decreases |acts|
  {
    hide Step, Enabled, EarlyCompact;
    if acts != [] {
      StepStaysAlone(c, acts[0]);
      AloneHasOneWriter(Step(c, acts[0]), acts[1..]);
    }
  }

  /** In a chat compacted only with an empty map, or never, every state has one writer and nothing runs behind another turn. */
  lemma OneWriterWithoutEarlyCompact(acts: seq<Action>)
    requires ValidRun(EMPTY, acts) && NoEarlyCompact(EMPTY, acts)
    ensures OneWriterThroughout(EMPTY, acts)
    ensures OneWriter(Run(EMPTY, acts)) && !HiddenRunning(Run(EMPTY, acts))
  {
    AloneHasOneWriter(EMPTY, acts);
    AloneMeetsNone(EMPTY, acts);
  }
}
