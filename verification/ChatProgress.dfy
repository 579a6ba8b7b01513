/**
 * What a chat does do: a free chat starts its oldest queued job, a send is taken up wherever there is room,
 * a stop drops all that waits and nothing else drops anything, an unread inbox is carried on.
 */
module ChatProgress {
  import opened PaneClaim
  import opened ChatRunner
  import opened SingleWriter

  // ---- The queue starts ----

  /** No turn, start, hold, claim, park or clear has the chat. */
  predicate IsFree(c: Chat) {
    c.active == [] && c.start == Idle && !c.hold && c.pane == Free && !c.parked && !c.clearing
  }

  predicate LeftWaiting(c: Chat) {
    IsFree(c) && c.queue != []
  }

  /** In `d` the oldest of `waiting` is being started if `free`, and else they all wait still. */
  ghost predicate OldestStarts(d: Chat, was: Start, waiting: seq<Job>, free: bool) {
    if free && waiting != [] then d.start == Preparing(waiting[0]) && d.queue == waiting[1..]
    else d.start == was && d.queue == waiting
  }

  /**
   * A swept turn leaves the map, and with nothing else there the oldest queued job starts, unless a hold, a
   * claim, a start, a park or a clear stands, or this agent has not vouched for the queue.
   */
  lemma SweepStartsTheOldest(c: Chat, i: nat)
    requires Enabled(c, Done(i))
    ensures var d, t := Step(c, Done(i)), c.active[i];
      && d.active == c.active[..i] + c.active[i + 1..]
      && (d.parked <==> c.parked || (t.recovered && c.queue != []))
      && OldestStarts(d, c.start, c.queue, IsFree(c.(active := d.active, parked := d.parked)))
  {
  }

  /** The backend resumes the chat: nothing stays parked, what runs is vouched for, and a free chat starts its oldest job. */
  lemma ResumeStartsTheOldest(c: Chat)
    ensures var d := Step(c, ResumeQueue);
      && (c.pane == Free ==> !d.parked && (c.active != [] ==> d.active == [c.active[0].(recovered := false)] + c.active[1..]))
      && OldestStarts(d, c.start, c.queue, IsFree(c.(parked := false)))
      && (c.pane != Free ==> d == c)
  {
  }

  /** The running turn reads its stdin still, and a message for it need not wait behind another. */
  predicate CanJoin(c: Chat, live: bool, fits: bool) {
    && live && fits && c.queue == [] && !c.hold && c.start == Idle && c.pane == Free
    && c.active != [] && !c.active[0].exit && c.active[0].job.live && !c.active[0].stdinEnded && !c.active[0].cancelled
  }

  /** Nothing at all has the chat and nothing waits: a message gets a turn of its own. */
  predicate CanStart(c: Chat) {
    c.active == [] && c.start == Idle && !c.hold && c.pane == Free && c.queue == []
  }

  predicate IsFull(waiting: seq<Job>) {
    |waiting| >= 20
  }

  /**
   * A send is refused, and nothing changes, exactly when what it has to wait in is full. Else the message is
   * the last of the running turn's inbox, or is started, or is the last of the queue, whose oldest starts if it can.
   */
  lemma SendIsTakenUp(c: Chat, person: bool, live: bool, fits: bool)
    ensures var d, job := Step(c, Send(person, live, fits)), Job(|c.accepted|, person, false, live);
      if if CanJoin(c, live, fits) then IsFull(c.active[0].inbox) else !CanStart(c) && IsFull(c.queue) then d == c
      else
        && d.accepted == c.accepted + [job]
        && (CanJoin(c, live, fits) ==> d.active[0].inbox == c.active[0].inbox + [job] && !d.active[0].recovered && d.queue == [] && d.start == Idle)
        && (CanStart(c) ==> d.start == Preparing(job) && d.queue == [])
        && (!CanJoin(c, live, fits) && !CanStart(c) ==>
              OldestStarts(d, c.start, c.queue + [job], IsFree(c.(parked := false))) && (d.parked <==> c.parked && c.pane != Free))
  {
  }

  /**
   * The steps that may set a chat free while messages wait, and start none: a look that ends the terminal's
   * claim, a resume that lets go, the end of a clear; and the end of a start whose turn is over and swept already.
   */
  predicate Frees(c: Chat, a: Action) {
    a.Look? || a.ReleaseResume? || a.ClearEnd? || (a.Launched? && c.active == [])
  }

  lemma TurnStepsLeaveNone(c: Chat, a: Action)
    requires Enabled(c, a) && !LeftWaiting(c) && !Frees(c, a)
    requires a.Prepared? || a.Launched? || a.Claim? || a.EndInput? || a.Exit? || a.Cancel? || a.Drain? || a.Steer? || a.Restart? || a.CancelQueued?
    ensures !LeftWaiting(Step(c, a))
  {
  }

  lemma ServingLeavesNone(c: Chat, a: Action)
    requires Enabled(c, a) && (a.Done? || a.ResumeQueue? || (a.Send? && Step(c, a) != c))
    ensures !LeftWaiting(Step(c, a))
  {
    match a
    case Done(i) => SweepStartsTheOldest(c, i);
    case ResumeQueue => ResumeStartsTheOldest(c);
    case Send(person, live, fits) => SendIsTakenUp(c, person, live, fits);
  }

  lemma NothingElseFrees(c: Chat, a: Action)
    requires Enabled(c, a) && !LeftWaiting(c) && !Frees(c, a)
    ensures !LeftWaiting(Step(c, a))
  {
    if a.Done? || a.ResumeQueue? || (a.Send? && Step(c, a) != c) {
      ServingLeavesNone(c, a);
    } else if a.Compact? || a.Interrupt? || a.ClearBegin? || a.ClaimResume? || a.Send? {
    } else {
      TurnStepsLeaveNone(c, a);
    }
  }

  /** Messages wait in a free chat all along `acts`, which no sweep, resume or accepted send is among. */
  ghost predicate Unserved(c: Chat, acts: seq<Action>)
    requires ValidRun(c, acts)
    decreases |acts|
  {
    && LeftWaiting(c)
    && (acts == [] ||
        (!acts[0].Done? && !acts[0].ResumeQueue? && (acts[0].Send? ==> Step(c, acts[0]) == c) && Unserved(Step(c, acts[0]), acts[1..])))
  }

  /** At some point of the run a step set the chat free, and nothing since has served it. */
  ghost predicate FreedUnserved(c: Chat, acts: seq<Action>)
    requires ValidRun(c, acts)
    decreases |acts|
  {
    acts != [] && ((Frees(c, acts[0]) && Unserved(Step(c, acts[0]), acts[1..])) || FreedUnserved(Step(c, acts[0]), acts[1..]))
  }

  lemma {:induction false} WaitingWasFreed(c: Chat, acts: seq<Action>)
    requires ValidRun(c, acts) && LeftWaiting(Run(c, acts))
    ensures Unserved(c, acts) || FreedUnserved(c, acts)
    decreases |acts|
  {
    hide Step, Enabled, LeftWaiting;
    if acts != [] {
      var a, d := acts[0], Step(c, acts[0]);
      WaitingWasFreed(d, acts[1..]);
      if Unserved(d, acts[1..]) && !Frees(c, a) {
        if !LeftWaiting(c) { NothingElseFrees(c, a); }
        if a.Done? || a.ResumeQueue? || (a.Send? && d != c) { ServingLeavesNone(c, a); }
      }
    }
  }

  /**
   * A message is never left in the queue of a free chat, save from where a claim, a hold or a clear ended, or a
   * start whose turn was swept before it, and until the next sweep, resume or accepted send: each starts the oldest.
   */
  lemma NoneLeftWaiting(acts: seq<Action>)
    requires ValidRun(EMPTY, acts) && LeftWaiting(Run(EMPTY, acts))
    ensures FreedUnserved(EMPTY, acts)
  {
    WaitingWasFreed(EMPTY, acts);
  }

  /** A turn over while its start still waits for the process it created, and a message queued behind it. */
  const OVER_IN_START := Chat(
    [Job(0, true, false, false), Job(1, true, false, false)], [Job(0, true, false, false)], Launching(Job(0, true, false, false)),
    [Turn(Job(0, true, false, false), false, false, true, false, false, [])], [Job(1, true, false, false)],
    false, Free, false, false, [], [])

  lemma OverInStartIsReached() returns (acts: seq<Action>)
    ensures ValidRun(EMPTY, acts) && Run(EMPTY, acts) == OVER_IN_START
  {
    var send := Send(true, false, true);
    var c1 := Step(EMPTY, send);
    var c2 := Step(c1, Prepared);
    var c3 := Step(c2, send);
    var c4 := Step(c3, Exit(0));
    assert c4 == OVER_IN_START;
    acts := RunOf(c3, Exit(0), []);
    acts := RunOf(c2, send, acts);
    acts := RunOf(c1, Prepared, acts);
    acts := RunOf(EMPTY, send, acts);
  }

  /** Swept before that start ends, it leaves the chat free with the message still in the queue, and nothing starts it. */
  lemma SweptStartLeavesTheQueue() returns (acts: seq<Action>)
    ensures ValidRun(EMPTY, acts) && LeftWaiting(Run(EMPTY, acts))
  {
    var first := OverInStartIsReached();
    var c1 := Step(OVER_IN_START, Drain(0));
    var c2 := Step(c1, Done(0));
    assert LeftWaiting(Step(c2, Launched(true)));
    hide Step, LeftWaiting;
    var rest := RunOf(c2, Launched(true), []);
    rest := RunOf(c1, Done(0), rest);
    rest := RunOf(OVER_IN_START, Drain(0), rest);
    Joined(EMPTY, first, rest);
    acts := first + rest;
  }

  // ---- What is dropped, and what is carried ----

  function FirstInbox(c: Chat): seq<Job> {
    if c.active == [] then [] else c.active[0].inbox
  }

  /** An interrupt does something unless the terminal has the chat and no turn runs. */
  predicate InterruptActs(c: Chat) {
    c.pane == Free || (c.active != [] && !c.active[0].exit)
  }

  /** What is dropped by each step: all that waits by a stop, a queued ask taken out, an inbox its sweep left unread. */
  lemma DroppedBy(c: Chat, a: Action)
    requires Enabled(c, a)
    ensures Step(c, a).dropped == c.dropped +
      match a
      case Interrupt => if InterruptActs(c) then FirstInbox(c) + c.queue else []
      case ClearBegin => c.queue + FirstInbox(c)
      case Done(i) => c.active[i].inbox
      case CancelQueued(k) => [c.queue[k]]
      case _ => []
  {
    assert c.dropped + FirstInbox(c) + c.queue == c.dropped + (FirstInbox(c) + c.queue);
    assert c.dropped + c.queue + FirstInbox(c) == c.dropped + (c.queue + FirstInbox(c));
    assert c.dropped + [] == c.dropped;
    if a.Done? {
      assert Step(c, a).dropped == Removed(c, a.turn).dropped;
    }
  }

  /** After a stop nothing waits for Claude: the queue is empty, and so is the inbox of the turn the map names first. */
  lemma StopDropsAll(c: Chat, a: Action)
    requires a == ClearBegin || (a == Interrupt && InterruptActs(c))
    ensures var d := Step(c, a);
      && d.queue == [] && FirstInbox(d) == [] && d.start == c.start && |d.active| == |c.active|
      && (forall i :: 1 <= i < |c.active| ==> d.active[i] == c.active[i])
      && (c.active != [] ==> d.active[0] == c.active[0].(inbox := []))
      && (a.ClearBegin? ==> d.clearing && !d.hold && !d.parked && d.pane == Free)
      && (a.Interrupt? ==> d.hold == c.hold && d.pane == c.pane && (d.parked <==> c.parked && FirstInbox(c) + c.queue == [] && (c.active == [] || c.active[0].exit)))
  {
  }

  /** A sweep puts what Claude never read ahead of the queue, oldest first, unless the turn was stopped. */
  lemma UnreadIsCarried(c: Chat, i: nat)
    requires Enabled(c, Drain(i))
    ensures var d := Step(c, Drain(i));
      && (!c.active[i].cancelled ==> d.queue == c.active[i].inbox + c.queue && d.active[i].inbox == [])
      && (c.active[i].cancelled ==> d.queue == c.queue && d.active[i].inbox == c.active[i].inbox)
  {
  }

  /** No turn was stopped, and a swept turn's inbox is empty. */
  ghost predicate DrainedEmpty(c: Chat) {
    forall i :: 0 <= i < |c.active| ==> !c.active[i].cancelled && (c.active[i].drained ==> c.active[i].exit && c.active[i].inbox == [])
  }

  predicate Stops(a: Action) {
    a.Interrupt? || a.ClearBegin? || a.CancelQueued? || a.Cancel?
  }

  lemma TurnStepKeepsDrained(c: Chat, a: Action)
    requires DrainedEmpty(c) && Enabled(c, a) && !Stops(a)
    requires a.Prepared? || a.Launched? || a.Claim? || a.EndInput? || a.Exit? || a.Drain? || a.Steer? || a.Restart?
    ensures DrainedEmpty(Step(c, a))
  {
  }

  lemma ChatStepKeepsDrained(c: Chat, a: Action)
    requires DrainedEmpty(c) && Enabled(c, a) && !Stops(a)
    requires a.Send? || a.Compact? || a.ClearEnd? || a.Look? || a.ClaimResume? || a.ReleaseResume? || a.ResumeQueue?
    ensures DrainedEmpty(Step(c, a))
  {
  }

  lemma SweptTurnKeepsDrained(c: Chat, i: nat)
    requires DrainedEmpty(c) && Enabled(c, Done(i))
    ensures DrainedEmpty(Step(c, Done(i)))
  {
    SweepStartsTheOldest(c, i);
    hide Step;
  }

  lemma {:induction false} UnstoppedDropsNone(c: Chat, acts: seq<Action>)
    requires ValidRun(c, acts) && DrainedEmpty(c) && c.dropped == []
    requires forall a :: a in acts ==> !Stops(a)
    ensures Run(c, acts).dropped == []
    decreases |acts|
  {
    hide Step, Enabled;
    if acts != [] {
      var a := acts[0];
      assert a in acts && !Stops(a);
      DroppedBy(c, a);
      DoneDropsNone(c, a);
      if a.Prepared? || a.Launched? || a.Claim? || a.EndInput? || a.Exit? || a.Drain? || a.Steer? || a.Restart? {
        TurnStepKeepsDrained(c, a);
      } else if a.Done? {
        SweptTurnKeepsDrained(c, a.turn);
      } else {
        ChatStepKeepsDrained(c, a);
      }
      UnstoppedDropsNone(Step(c, a), acts[1..]);
    }
  }

  lemma DoneDropsNone(c: Chat, a: Action)
    requires DrainedEmpty(c) && Enabled(c, a)
    ensures a.Done? ==> c.active[a.turn].inbox == []
  {
  }

  /** Where nobody stops anything, whatever else happens, crashes included, nothing is ever dropped. */
  lemma OnlyStopsDrop(acts: seq<Action>)
    requires ValidRun(EMPTY, acts) && forall a :: a in acts ==> !Stops(a)
    ensures Run(EMPTY, acts).dropped == []
  {
    UnstoppedDropsNone(EMPTY, acts);
  }

  // ---- Who else gets the chat ----

  /** A resume has the session exactly when no turn starts or runs and no claim stands; then nothing starts until it lets go. */
  lemma ClaimHoldsTheChat(c: Chat)
    ensures var d := Step(c, ClaimResume);
      if c.start == Idle && (c.active == [] || c.active[0].exit) && !c.pane.Owns? then d == c.(hold := true, pane := Owns) else d == c
  {
  }

  lemma CompactionStarts(c: Chat)
    ensures var d, job := Step(c, Compact), Job(|c.accepted|, false, true, false);
      if c.start == Idle && (c.active == [] || c.active[0].exit) && c.queue == [] && !c.hold && c.pane == Free
      then d == c.(accepted := c.accepted + [job], start := Preparing(job)) else d == c
  {
  }

  /** A follow-up is written to the turn that runs its ask, or refused: it never waits in the queue. */
  lemma SteeredJoinsItsTurn(c: Chat, i: nat)
    requires i < |c.active|
    ensures var d, t, job := Step(c, Steer(i)), c.active[i], Job(|c.accepted|, false, false, true);
      if !t.exit && t.job.live && !t.stdinEnded && !t.cancelled && !c.clearing && c.start != Launching(t.job) && !IsFull(t.inbox)
      then d.accepted == c.accepted + [job] && d.active[i].inbox == t.inbox + [job] && !d.active[i].recovered && d.queue == c.queue
      else d == c
  {
  }

  /** What a resume that lets go leaves: a claim that saw Claude waits for it to leave, one told to park keeps the queue. */
  lemma ReleaseLetsGo(c: Chat, seen: bool, park: bool)
    ensures var d := Step(c, ReleaseResume(seen, park));
      && !d.hold && d.queue == c.queue && d.start == c.start
      && (d.pane == Free <==> c.pane == Free || (!seen && !park && c.pane == Owns))
      && (seen && c.pane != Free ==> d.pane == Seen) && (!seen && (park || c.pane != Owns) ==> d.pane == c.pane)
      && (d.parked <==> c.parked || (park && c.queue != []))
  {
  }

  /**
   * The agent that takes over finds the turns that were there, each to be vouched for and none stopped or swept,
   * what their inboxes held but for the files a drain had removed; it holds nothing, starts nothing, keeps the
   * terminal's claim and the queue, and parks the queue when there is no turn to wait for.
   */
  lemma RestartTakesUp(c: Chat, order: seq<nat>, died: set<nat>, torn: nat, files: nat)
    requires Enabled(c, Restart(order, died, torn, files))
    ensures var d := Step(c, Restart(order, died, torn, files));
      && |d.active| == |c.active| && d.queue == c.queue && d.pane == c.pane
      && d.start == Idle && !d.hold && !d.clearing && (d.parked <==> c.queue != [] && c.active == [])
      && d.accepted == c.accepted && d.handed == c.handed && d.dropped == c.dropped
      && forall k :: 0 <= k < |order| ==>
           var t, u := c.active[order[k]], d.active[k];
           u == Turn(t.job, true, false, t.exit || order[k] in died, t.stdinEnded, false, if files > 0 && order[k] == torn then t.inbox[files..] else t.inbox)
  {
  }

  /** A start that failed leaves its turn over, for a sweep to find, and no other; one that came up leaves all as they are. */
  lemma StartReturns(c: Chat, ok: bool)
    requires c.start.Launching?
    ensures var d := Step(c, Launched(ok));
      && d.start == Idle && d.queue == c.queue && |d.active| == |c.active|
      && forall i :: 0 <= i < |c.active| ==>
           (d.active[i].exit <==> c.active[i].exit || (!ok && c.active[i].job == c.start.job)) && d.active[i] == c.active[i].(exit := d.active[i].exit)
  {
  }

  /** A clear that ends lets the chat go, and changes nothing else; until then it starts nothing from its queue. */
  lemma ClearLetsGo(c: Chat)
    ensures var d := Step(c, ClearEnd); !d.clearing && d.(clearing := c.clearing) == c
    ensures c.clearing ==> Step(c, ResumeQueue).start == c.start && Step(c, ResumeQueue).queue == c.queue
  {
  }
}
