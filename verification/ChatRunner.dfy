/**
 * One chat in the chat runner: its turns, its queue and the live inboxes, moved by sends, sweeps, stops,
 * resume claims, compactions and agent crashes. Each step is one stretch of the runner's code between
 * two awaits, or one act of a turn's wrapper process; steps interleave freely.
 */
module ChatRunner {
  import opened Common
  import opened PaneClaim

  const MAX_QUEUE := 20

  /** A message. `id` is when it was accepted; `person` tells a person's message from an ask or a compaction. */
  datatype Job = Job(id: nat, person: bool, compact: bool, live: bool)

  /** A turn of the chat in the runner's map (and on disk without `done`). `drained` once its sweep took its inbox. */
  datatype Turn = Turn(job: Job, recovered: bool, cancelled: bool, exit: bool, stdinEnded: bool, drained: bool, inbox: seq<Job>)

  /** `startTurn`: none, before the turn is in the map, or in the map with its process being created. */
  datatype Start = Idle | Preparing(job: Job) | Launching(job: Job)

  /**
   * `active` is the map in insertion order. `accepted`, `handed` (written as a turn's prompt or claimed
   * by a wrapper, in that order), `dropped` (by a stop) and `lost` (by a crash) are the history.
   */
  datatype Chat = Chat(
    accepted: seq<Job>, handed: seq<Job>, start: Start, active: seq<Turn>, queue: seq<Job>,
    hold: bool, pane: Pane, parked: bool, clearing: bool, dropped: seq<Job>, lost: seq<Job>)

  const EMPTY := Chat([], [], Idle, [], [], false, Free, false, false, [], [])

  // ---- What the code asks ----

  /** `stillRunning(activeFor(chat))`: it looks at the first turn in the map only. */
  predicate FirstRunning(c: Chat) {
    c.active != [] && !c.active[0].exit
  }

  predicate ReadsInput(t: Turn) {
    !t.exit && t.job.live && !t.stdinEnded
  }

  predicate ResumeBlocks(c: Chat) {
    c.hold || c.start != Idle || c.pane != Free
  }

  function MarkKnown(c: Chat): Chat {
    if c.active == [] then c else c.(active := c.active[0 := c.active[0].(recovered := false)])
  }

  /** `startNext`: the oldest queued job, unless something else has the chat. */
  function StartNext(c: Chat): Chat {
    if c.active != [] || c.start != Idle || c.hold || c.pane != Free || c.parked || c.clearing || c.queue == [] then c
    else c.(queue := c.queue[1..], start := Preparing(c.queue[0]))
  }

  datatype Place = IntoTurn | IntoQueue | AsTurn | Refused

  /** Where a send goes. `fits`: the running turn is for this checkout, mode, model and the rest. */
  function SendPlace(c: Chat, live: bool, fits: bool): Place {
    if live && fits && c.queue == [] && !ResumeBlocks(c) && c.active != [] && ReadsInput(c.active[0]) && !c.active[0].cancelled then
      if |c.active[0].inbox| >= MAX_QUEUE then Refused else IntoTurn
    else if c.active != [] || ResumeBlocks(c) || c.queue != [] then
      if |c.queue| >= MAX_QUEUE then Refused else IntoQueue
    else AsTurn
  }

  predicate CompactTaken(c: Chat) {
    c.start == Idle && !FirstRunning(c) && c.queue == [] && !c.hold && c.pane == Free
  }

  predicate ClaimTaken(c: Chat) {
    c.start == Idle && !FirstRunning(c) && c.pane != Owns
  }

  predicate SteerTaken(c: Chat, i: nat)
    requires i < |c.active|
  {
    var t := c.active[i];
    ReadsInput(t) && !t.cancelled && !c.clearing && c.start != Launching(t.job) && |t.inbox| < MAX_QUEUE
  }

  // ---- The steps ----

  datatype Action =
    | Send(person: bool, live: bool, fits: bool)
    | Compact
    | Prepared                      // the turn is on disk and in the map, its prompt written
    | Launched(ok: bool)            // its process came up, or did not
    | Claim(turn: nat)              // the wrapper takes the oldest inbox message
    | EndInput(turn: nat)           // the wrapper closes Claude's stdin
    | Exit(turn: nat)
    | Cancel(turn: nat)             // `signalStop`
    | Interrupt
    | ClearBegin
    | ClearEnd
    | Look(probe: Probe, elapsed: nat)
    | ClaimResume
    | ReleaseResume(seen: bool, park: bool)
    | ResumeQueue
    | Drain(turn: nat)              // a sweep, up to its await: what the inbox still holds goes ahead of the queue
    | Done(turn: nat)               // and past it: `done`, out of the map, the next job
    | CancelQueued(at: nat)         // a queued ask taken out
    | Steer(turn: nat)              // a follow-up ask into the running ask's turn
    | Restart(order: seq<nat>, died: set<nat>, torn: nat, files: nat)
      // the agent dies, `files` files into the drain of turn `torn`; its successor finds the turns in `order`

  ghost predicate Enabled(c: Chat, a: Action) {
    match a
    case Prepared => c.start.Preparing?
    case Launched(_) => c.start.Launching?
    case Claim(i) => i < |c.active| && ReadsInput(c.active[i]) && c.active[i].inbox != []
    case EndInput(i) => i < |c.active| && ReadsInput(c.active[i])
    case Exit(i) => i < |c.active| && !c.active[i].exit
    case Cancel(i) => i < |c.active|
    case Drain(i) => i < |c.active| && c.active[i].exit && !c.active[i].drained
    case Done(i) => i < |c.active| && c.active[i].drained
    case CancelQueued(k) => k < |c.queue| && !c.queue[k].person
    case Steer(i) => i < |c.active|
    case Restart(order, died, torn, files) =>
      && |order| == |c.active|
      && (forall k :: 0 <= k < |order| ==> order[k] < |c.active|)
      && (forall k, l :: 0 <= k < l < |order| ==> order[k] != order[l])
      && (forall i :: 0 <= i < |c.active| ==> i in order)
      && (files > 0 ==>
            torn < |c.active| && files <= |c.active[torn].inbox| && (torn == 0 || (c.active[torn].exit && !c.active[torn].cancelled)))
    case _ => true
  }

  function Inboxes(turns: seq<Turn>): seq<Job> {
    if turns == [] then [] else turns[0].inbox + Inboxes(turns[1..])
  }

  function Set(c: Chat, i: nat, t: Turn): Chat
    requires i < |c.active|
  {
    c.(active := c.active[i := t])
  }

  /** What a stop drops: the queue and the unread inbox of the turn the map names first. */
  function DropAll(c: Chat): Chat {
    var first := if c.active == [] then [] else c.active[0].inbox;
    var turns := if c.active == [] then [] else c.active[0 := c.active[0].(inbox := [])];
    c.(dropped := c.dropped + first + c.queue, active := turns, queue := [])
  }

  function Revived(t: Turn, died: bool, gone: nat): Turn
    requires gone <= |t.inbox|
  {
    t.(recovered := true, cancelled := false, drained := false, exit := t.exit || died, inbox := t.inbox[gone..])
  }

  /** The oldest messages of an inbox, their files removed by a drain that did not get to write them to the queue. */
  function Gone(c: Chat, torn: nat, files: nat): seq<Job>
    requires files > 0 ==> torn < |c.active| && files <= |c.active[torn].inbox|
  {
    if files > 0 then c.active[torn].inbox[..files] else []
  }

  function Restarted(c: Chat, order: seq<nat>, died: set<nat>, torn: nat, files: nat): Chat
    requires forall k :: 0 <= k < |order| ==> order[k] < |c.active|
    requires files > 0 ==> torn < |c.active| && files <= |c.active[torn].inbox|
  {
    var turns := seq(|order|, k requires 0 <= k < |order| => Revived(c.active[order[k]], order[k] in died, if order[k] == torn then files else 0));
    c.(start := Idle, active := turns, hold := false, parked := c.queue != [] && turns == [], clearing := false,
       lost := c.lost + (if c.start.Preparing? then [c.start.job] else []) + Gone(c, torn, files))
  }

  function Accept(c: Chat, job: Job): Chat {
    c.(accepted := c.accepted + [job])
  }

  /** `resumeQueue`, and a send's way to the queue: the backend speaks for the chat, so nothing stays parked. */
  function Unpark(c: Chat): Chat {
    if c.pane != Free then c else StartNext(MarkKnown(c.(parked := false)))
  }

  function SendStep(c: Chat, person: bool, live: bool, fits: bool): Chat {
    var job := Job(|c.accepted|, person, false, live);
    match SendPlace(c, live, fits)
    case IntoTurn =>
      var t := c.active[0];
      Set(Accept(c, job), 0, t.(inbox := t.inbox + [job], recovered := false))
    case IntoQueue => Unpark(Accept(c, job).(queue := c.queue + [job]))
    case AsTurn => Accept(c, job).(start := Preparing(job))
    case Refused => c
  }

  function CompactStep(c: Chat): Chat {
    if !CompactTaken(c) then c
    else
      var job := Job(|c.accepted|, false, true, false);
      Accept(c, job).(start := Preparing(job))
  }

  function PreparedStep(c: Chat): Chat
    requires c.start.Preparing?
  {
    var job := c.start.job;
    c.(start := Launching(job), handed := c.handed + [job], active := c.active + [Turn(job, false, false, false, false, false, [])])
  }

  function LaunchedStep(c: Chat, ok: bool): Chat
    requires c.start.Launching?
  {
    var turns := if ok then c.active
                 else seq(|c.active|, i requires 0 <= i < |c.active| => if c.active[i].job == c.start.job then c.active[i].(exit := true) else c.active[i]);
    c.(start := Idle, active := turns)
  }

  function InterruptStep(c: Chat): Chat {
    if c.pane != Free && !FirstRunning(c) then c
    else
      var d := DropAll(c);
      if FirstRunning(c) || |d.dropped| > |c.dropped| then d.(parked := false) else d
  }

  function ClearStep(c: Chat): Chat {
    var first := if c.active == [] then [] else c.active[0].inbox;
    DropAll(c).(dropped := c.dropped + c.queue + first, clearing := true, hold := false, parked := false, pane := Free)
  }

  function ClaimStep(c: Chat): Chat {
    if ClaimTaken(c) then c.(hold := true, pane := Owns) else c
  }

  function ReleaseStep(c: Chat, seen: bool, park: bool): Chat {
    var pane := if seen && c.pane != Free then Seen else if !park && c.pane == Owns then Free else c.pane;
    c.(hold := false, pane := pane, parked := c.parked || (park && c.queue != []))
  }

  function DrainStep(c: Chat, i: nat): Chat
    requires i < |c.active|
  {
    var t := c.active[i];
    if t.cancelled then Set(c, i, t.(drained := true))
    else Set(c, i, t.(drained := true, inbox := [])).(queue := t.inbox + c.queue)
  }

  function Removed(c: Chat, i: nat): Chat
    requires i < |c.active|
  {
    var t := c.active[i];
    c.(active := Without(c.active, i), dropped := c.dropped + t.inbox, parked := c.parked || (t.recovered && c.queue != []))
  }

  function SteerStep(c: Chat, i: nat): Chat
    requires i < |c.active|
  {
    if !SteerTaken(c, i) then c
    else
      var t, job := c.active[i], Job(|c.accepted|, false, false, true);
      Set(Accept(c, job), i, t.(inbox := t.inbox + [job], recovered := false))
  }

  ghost function Step(c: Chat, a: Action): Chat
    requires Enabled(c, a)
  {
    match a
    case Send(person, live, fits) => SendStep(c, person, live, fits)
    case Compact => CompactStep(c)
    case Prepared => PreparedStep(c)
    case Launched(ok) => LaunchedStep(c, ok)
    case Claim(i) =>
      var t := c.active[i];
      Set(c, i, t.(inbox := t.inbox[1..])).(handed := c.handed + [t.inbox[0]])
    case EndInput(i) => Set(c, i, c.active[i].(stdinEnded := true))
    case Exit(i) => Set(c, i, c.active[i].(exit := true))
    case Cancel(i) => Set(c, i, c.active[i].(cancelled := true))
    case Interrupt => InterruptStep(c)
    case ClearBegin => ClearStep(c)
    case ClearEnd => c.(clearing := false)
    case Look(probe, elapsed) => c.(pane := NextPaneClaim(c.pane, probe, elapsed))
    case ClaimResume => ClaimStep(c)
    case ReleaseResume(seen, park) => ReleaseStep(c, seen, park)
    case ResumeQueue => Unpark(c)
    case Drain(i) => DrainStep(c, i)
    case Done(i) => StartNext(Removed(c, i))
    case CancelQueued(k) => c.(queue := Without(c.queue, k), dropped := c.dropped + [c.queue[k]])
    case Steer(i) => SteerStep(c, i)
    case Restart(order, died, torn, files) => Restarted(c, order, died, torn, files)
  }

  ghost predicate ValidRun(c: Chat, acts: seq<Action>)
    decreases |acts|
  {
    acts == [] || (Enabled(c, acts[0]) && ValidRun(Step(c, acts[0]), acts[1..]))
  }

  ghost function Run(c: Chat, acts: seq<Action>): Chat
    requires ValidRun(c, acts)
    decreases |acts|
  {
    if acts == [] then c else Run(Step(c, acts[0]), acts[1..])
  }
}
