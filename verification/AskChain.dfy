/**
 * Asks on one thread's chat: a follow-up is steered into the turn that answers an earlier ask, and when
 * that turn ends the job files, the turn's chain (`asks.json`) and its inbox together decide which ask is
 * answered. A step is one stretch of `ask-chat.js` or the runner between two awaits, one act of a turn's
 * wrapper, the end of a reporting script, or the agent dying and starting again.
 */
module AskChain {
  import opened Common

  type Id = nat

  // ---- Who a finished turn answers ----

  datatype InboxFile = Waiting | Delivered | Taken

  /**
   * An ask of a turn, the number of its inbox file, and what became of that file: it waits, the wrapper has
   * renamed it, or a drain has taken it out. The turn's first ask is its prompt, number 0, and delivered.
   */
  datatype Entry = Entry(id: Id, text: Option<string>, name: nat, file: InboxFile)

  datatype Target = Target(id: Id, after: Option<string>, superseded: seq<Id>, report: bool, lost: seq<Id>)

  function LastDelivered(chain: seq<Entry>): (k: nat)
    requires chain != [] && chain[0].file.Delivered?
    ensures k < |chain| && chain[k].file.Delivered?
    ensures forall j :: k < j < |chain| ==> !chain[j].file.Delivered?
  {
    var last := |chain| - 1;
    if chain[last].file.Delivered? then last else LastDelivered(chain[..last])
  }

  function Ids(chain: seq<Entry>): (ids: seq<Id>)
    ensures |ids| == |chain|
    ensures forall k :: 0 <= k < |chain| ==> ids[k] == chain[k].id
  {
    seq(|chain|, k requires 0 <= k < |chain| => chain[k].id)
  }

  function WaitingIds(chain: seq<Entry>): (ids: seq<Id>)
    ensures forall id :: id in ids ==> exists k :: 0 <= k < |chain| && chain[k].id == id && chain[k].file.Waiting?
    ensures forall k :: 0 <= k < |chain| && chain[k].file.Waiting? ==> chain[k].id in ids
  {
    if chain == [] then []
    else
      var last := |chain| - 1;
      WaitingIds(chain[..last]) + if chain[last].file.Waiting? then [chain[last].id] else []
  }

  function TurnTarget(chain: seq<Entry>): Target
    requires chain != [] && chain[0].file.Delivered?
  {
    var k := LastDelivered(chain);
    Target(chain[k].id, if k > 0 then chain[k].text else None, Ids(chain[..k]), k == |chain| - 1, WaitingIds(chain[k + 1..]))
  }

  /**
   * The ask at `k` is the newest that Claude was given, and the target says so: its id and its own text (the
   * turn's first ask, its prompt, has none), the asks before it superseded, those behind it still waiting lost.
   */
  ghost predicate IsTarget(chain: seq<Entry>, k: nat, t: Target) {
    && k < |chain| && chain[k].file.Delivered? && (forall j :: k < j < |chain| ==> !chain[j].file.Delivered?)
    && t.id == chain[k].id && t.after == (if k == 0 then None else chain[k].text)
    && |t.superseded| == k && (forall j :: 0 <= j < k ==> t.superseded[j] == chain[j].id)
    && (t.report <==> k == |chain| - 1)
    && (forall id :: id in t.lost <==> exists j :: k < j < |chain| && chain[j].id == id && chain[j].file.Waiting?)
  }

  lemma TargetFound(chain: seq<Entry>)
    requires chain != [] && chain[0].file.Delivered?
    ensures IsTarget(chain, LastDelivered(chain), TurnTarget(chain))
  {
    var k, t := LastDelivered(chain), TurnTarget(chain);
    var later := chain[k + 1..];
    forall id
      ensures id in t.lost <==> exists j :: k < j < |chain| && chain[j].id == id && chain[j].file.Waiting?
    {
      if id in t.lost {
        var i :| 0 <= i < |later| && later[i].id == id && later[i].file.Waiting?;
        assert chain[k + 1 + i] == later[i];
      }
      if j :| k < j < |chain| && chain[j].id == id && chain[j].file.Waiting? {
        assert later[j - k - 1] == chain[j];
      }
    }
  }

  lemma LastGrows(chain: seq<Entry>, i: nat)
    requires 1 <= i < |chain| && chain[0].file.Delivered?
    ensures LastDelivered(chain[..i + 1]) == if chain[i].file.Delivered? then i else LastDelivered(chain[..i])
  {
    assert chain[..i + 1][..i] == chain[..i];
  }

  lemma WaitingGrows(chain: seq<Entry>, i: nat)
    requires i < |chain|
    ensures WaitingIds(chain[..i + 1]) == WaitingIds(chain[..i]) + if chain[i].file.Waiting? then [chain[i].id] else []
  {
    assert chain[..i + 1][..i] == chain[..i];
  }

  /** `turnTarget`: two passes over the chain. */
  method FindTarget(head: Id, steered: seq<Entry>) returns (t: Target)
    ensures t == TurnTarget([Entry(head, None, 0, Delivered)] + steered)
    ensures exists k :: IsTarget([Entry(head, None, 0, Delivered)] + steered, k, t)
  {
    hide IsTarget;
    var chain := [Entry(head, None, 0, Delivered)] + steered;
    TargetFound(chain);
    assert LastDelivered(chain[..1]) == 0 && WaitingIds([]) == [];
    hide LastDelivered, WaitingIds;
    var target, i := 0, 1;
    while i < |chain|
      invariant 1 <= i <= |chain| && target < i
      invariant target == LastDelivered(chain[..i])
    {
      LastGrows(chain, i);
      if chain[i].file.Delivered? { target := i; }
      i := i + 1;
    }
    assert chain[..i] == chain;
    var later, lost := chain[target + 1..], [];
    i := 0;
    while i < |later|
      invariant 0 <= i <= |later|
      invariant lost == WaitingIds(later[..i])
    {
      WaitingGrows(later, i);
      if later[i].file.Waiting? { lost := lost + [later[i].id]; }
      i := i + 1;
    }
    assert later[..i] == later;
    t := Target(chain[target].id, if target > 0 then chain[target].text else None, Ids(chain[..target]), later == [], lost);
  }

  // ---- A turn's inbox ----

  /** The numbers that files of the inbox have now. A removed file's number is free again. */
  function Names(chain: seq<Entry>): set<nat> {
    set e | e in chain && !e.file.Taken? :: e.name
  }

  /** `deliverLive` numbers a file one past the highest there, waiting or renamed. */
  predicate IsNext(name: nat, names: set<nat>) {
    (forall m :: m in names ==> m < name) && name >= 1 && name - 1 in names
  }

  /** What there is under a number, as `existsSync` tells: a renamed file, a waiting one, or none. */
  function FileNamed(chain: seq<Entry>, name: nat): InboxFile {
    if exists e :: e in chain && e.name == name && e.file.Delivered? then Delivered
    else if exists e :: e in chain && e.name == name && e.file.Waiting? then Waiting
    else Taken
  }

  /** The asks as `onTurnDone` sees them: each by its number, whosever file has that number now. */
  function Look(chain: seq<Entry>): (r: seq<Entry>)
    ensures |r| == |chain|
    ensures forall k :: 0 <= k < |chain| ==> r[k] == chain[k].(file := FileNamed(chain, chain[k].name))
  {
    seq(|chain|, k requires 0 <= k < |chain| => chain[k].(file := FileNamed(chain, chain[k].name)))
  }

  ghost predicate Sorted(names: seq<nat>) {
    forall i, j :: 0 <= i < j < |names| ==> names[i] < names[j]
  }

  /** `pendingInbox`: the waiting files by number. */
  ghost predicate Lists(names: seq<nat>, chain: seq<Entry>) {
    Sorted(names) && forall n :: n in names <==> n in WaitingNames(chain)
  }

  function WaitingNames(chain: seq<Entry>): set<nat> {
    set e | e in chain && e.file.Waiting? :: e.name
  }

  /** The wrapper renames the waiting file of this number, if there is one. */
  function Claimed(chain: seq<Entry>, name: nat): (r: seq<Entry>)
    ensures |r| == |chain|
    ensures forall k :: 0 <= k < |chain| ==>
      r[k] == if chain[k].name == name && chain[k].file.Waiting? then chain[k].(file := Delivered) else chain[k]
  {
    seq(|chain|, k requires 0 <= k < |chain| =>
      if chain[k].name == name && chain[k].file.Waiting? then chain[k].(file := Delivered) else chain[k])
  }

  // ---- The thread ----

  datatype Stage = Preparing | Sent | Superseded | Reporting

  datatype JobFile = JobFile(stage: Stage, steerOf: Option<Id>)

  /** `listed`: the numbers the wrapper's tick has listed and still to come to. */
  datatype Turn = Turn(number: nat, chain: seq<Entry>, listed: seq<nat>, ended: bool, stopped: bool, reported: bool, swept: bool)

  /**
   * Where an ask is: with `--prepare`, on its way into the chat, with `steerAsk` before and after it
   * looked the turn up, queued, being started (`direct`: by its own send, which goes on until the turn is
   * in the map), in a turn; not in the chat since the agent died; or over.
   */
  datatype Place =
    | Fetching | Sending | Steering(prev: Id) | Joining(prev: Id, number: nat)
    | Queued | Starting(direct: bool) | InTurn(number: nat) | Stranded | Out

  datatype Answer = Report(id: Id) | Failure(id: Id)

  /**
   * `marks`: a follow-up taken by a turn, and the ask it joined, before that one's job file says so.
   * `failing`: asks whose `--fail` script runs. `answers`, `follows`, `superseded`, `cancelled` and
   * `settled` (turns whose end was reported) are the history, and so is `untold`: asks whose clone took too
   * long, their script stopped as a cancel stops it.
   */
  datatype Thread = Thread(
    jobs: map<Id, JobFile>, place: map<Id, Place>, queue: seq<Id>, turns: seq<Turn>, started: nat,
    marks: map<Id, Id>, failing: set<Id>, answers: multiset<Answer>, follows: map<Id, Id>,
    superseded: set<Id>, cancelled: set<Id>, settled: set<nat>, untold: set<Id>)

  const NONE := Thread(map[], map[], [], [], 0, map[], {}, multiset{}, map[], {}, {}, {}, {})

  datatype Sending = AsTurn | IntoQueue | Thrown

  datatype Action =
    | Ask(id: Id)
    | PrepareFailed(id: Id)                 // the script told the asker, unless it was canceled
    | PrepareTimedOut(id: Id)               // stopped at its time limit, the script tells nobody
    | Prepared(id: Id)
    | SendDone(id: Id, how: Sending)
    | StartNext
    | Start(id: Id)                         // the turn is in the runner's map
    | SteerBegin(id: Id, prev: Id)
    | SteerFind(id: Id)
    | SteerDecide(id: Id, text: string, open: bool, name: nat)  // `open`: live, not starting, still reading its inbox, room in it
    | Mark(id: Id)
    | Tick(turn: nat, listed: seq<nat>)     // the wrapper lists its inbox
    | Deliver(turn: nat)                    // and comes to the next of those files, there or not
    | Stop(turn: nat)
    | Exit(turn: nat)
    | Sweep(turn: nat)
    | SweepEnd(turn: nat)
    | Drop(late: set<nat>, left: seq<nat>)
      // `clear` or `interrupt`: the queue and the first turn's unread inbox, of which the wrapper claims `late` meanwhile
    | Cancel(id: Id)
    | CancelAsk(id: Id)
    | CancelRest(tomb: Option<Id>)
    | ScriptEnd(id: Id)                     // a `--fail` or `--report` script ends and removes the job file
    | Reconcile(id: Id)
    | Restart(died: set<nat>)

  predicate Holds(t: Turn, id: Id) {
    id in Ids(t.chain)
  }

  /** `findAsk` among the turns: the first in the map whose chain has the ask. */
  function FindTurn(turns: seq<Turn>, id: Id): (at: Option<nat>)
    ensures at.None? <==> forall i :: 0 <= i < |turns| ==> !Holds(turns[i], id)
    ensures at.Some? ==> at.value < |turns| && Holds(turns[at.value], id)
  {
    if turns == [] then None
    else if Holds(turns[0], id) then Some(0)
    else
      var rest := FindTurn(turns[1..], id);
      if rest.None? then None else Some(rest.value + 1)
  }

  function TurnNumbered(turns: seq<Turn>, number: nat): (at: Option<nat>)
    ensures at.None? <==> forall i :: 0 <= i < |turns| ==> turns[i].number != number
    ensures at.Some? ==> at.value < |turns| && turns[at.value].number == number
  {
    if turns == [] then None
    else if turns[0].number == number then Some(0)
    else
      var rest := TurnNumbered(turns[1..], number);
      if rest.None? then None else Some(rest.value + 1)
  }

  /** Its `prepareAndSend` has not returned: a send that starts a turn waits for that start. */
  predicate InFlight(s: Thread, id: Id) {
    id in s.place && (s.place[id].Fetching? || s.place[id].Sending? || (s.place[id].Starting? && s.place[id].direct))
  }

  /** `steerRefusal`, and the new job's id not yet used. */
  predicate MayBegin(s: Thread, id: Id, prev: Id) {
    id !in s.place && id !in s.jobs && prev in s.jobs && !InFlight(s, prev) && s.jobs[prev].stage.Sent?
  }

  /**
   * While the runner drains, the wrapper may rename files that the drain has listed and not yet come to, in
   * the order of its own list; `left` is what is left of that list.
   */
  ghost predicate Drains(s: Thread, late: set<nat>, left: seq<nat>) {
    if s.turns == [] then late == {} && left == []
    else
      var t := s.turns[0];
      && late <= WaitingNames(t.chain) && (t.ended ==> late == {} && left == t.listed)
      && Sorted(left) && (forall n :: n in left ==> n in t.listed || n in WaitingNames(t.chain))
      && (forall n, m :: n in late && m in left ==> n < m)
  }

  ghost predicate Enabled(s: Thread, a: Action) {
    match a
    case Ask(id) => id !in s.place && id !in s.jobs
    case PrepareFailed(id) => id in s.place && s.place[id].Fetching?
    case PrepareTimedOut(id) => id in s.place && s.place[id].Fetching?
    case Prepared(id) => id in s.place && s.place[id].Fetching?
    case SendDone(id, _) => id in s.place && s.place[id].Sending?
    case StartNext => s.queue != []
    case Start(id) => id in s.place && s.place[id].Starting?
    case SteerBegin(id, prev) => MayBegin(s, id, prev)
    case SteerFind(id) => id in s.place && s.place[id].Steering?
    case SteerDecide(id, _, _, name) =>
      && id in s.place && s.place[id].Joining?
      && var at := TurnNumbered(s.turns, s.place[id].number);
         at.Some? ==> IsNext(name, Names(s.turns[at.value].chain))
    case Mark(id) => id in s.marks
    case Tick(i, listed) => i < |s.turns| && !s.turns[i].ended && s.turns[i].listed == [] && Lists(listed, s.turns[i].chain)
    case Deliver(i) => i < |s.turns| && !s.turns[i].ended && s.turns[i].listed != []
    case Drop(late, left) => Drains(s, late, left)
    case Stop(i) => i < |s.turns|
    case Exit(i) => i < |s.turns|
    case Sweep(i) => i < |s.turns| && s.turns[i].ended && !s.turns[i].swept && s.turns[i].chain != [] && s.turns[i].chain[0].file.Delivered?
    case SweepEnd(i) => i < |s.turns| && s.turns[i].swept
    case CancelAsk(id) => id in s.cancelled
    case ScriptEnd(id) => id in s.failing || (id in s.jobs && s.jobs[id].stage.Reporting?)
    case _ => true
  }

  // ---- The steps ----

  function Put(s: Thread, id: Id, p: Place): Thread {
    s.(place := s.place[id := p])
  }

  /** `fail`: nothing without a job file; else the script is on its way to the asker. */
  function Fail(s: Thread, id: Id): Thread {
    if id in s.jobs then s.(failing := s.failing + {id}, answers := s.answers + multiset{Failure(id)}) else s
  }

  function FailAll(s: Thread, ids: seq<Id>): Thread
    decreases |ids|
  {
    if ids == [] then s else FailAll(Fail(s, ids[0]), ids[1..])
  }

  function PrepareFailedStep(s: Thread, id: Id): Thread {
    var answers := if id in s.jobs then s.answers + multiset{Failure(id)} else s.answers;
    Put(s, id, Out).(jobs := s.jobs - {id}, answers := answers)
  }

  function PreparedStep(s: Thread, id: Id): Thread {
    if id !in s.jobs then Put(s, id, Out)
    else Put(s, id, Place.Sending).(jobs := s.jobs[id := s.jobs[id].(stage := Sent)])
  }

  function SendDoneStep(s: Thread, id: Id, how: Sending): Thread {
    match how
    case AsTurn => Put(s, id, Starting(true))
    case IntoQueue => Put(s, id, Queued).(queue := s.queue + [id])
    case Thrown => Put(Fail(s, id), id, Out)
  }

  function StartStep(s: Thread, id: Id): Thread {
    Put(s, id, InTurn(s.started)).(
      turns := s.turns + [Turn(s.started, [Entry(id, None, 0, Delivered)], [], false, false, false, false)], started := s.started + 1)
  }

  /** The steer is refused: its job goes, and its id is as if never used. */
  function Refuse(s: Thread, id: Id): Thread {
    s.(jobs := s.jobs - {id}, place := s.place - {id}, cancelled := s.cancelled - {id})
  }

  function SteerFindStep(s: Thread, id: Id): Thread
    requires id in s.place && s.place[id].Steering?
  {
    var prev := s.place[id].prev;
    var at := FindTurn(s.turns, prev);
    if at.None? then Refuse(s, id) else Put(s, id, Joining(prev, s.turns[at.value].number))
  }

  predicate Takes(t: Turn, prev: Id) {
    !t.ended && !t.stopped && !t.reported && t.chain != [] && t.chain[|t.chain| - 1].id == prev
  }

  function SteerDecideStep(s: Thread, id: Id, text: string, open: bool, name: nat): Thread
    requires id in s.place && s.place[id].Joining?
  {
    var prev, number := s.place[id].prev, s.place[id].number;
    var at := TurnNumbered(s.turns, number);
    if at.Some? && open && Takes(s.turns[at.value], prev) then
      var t := s.turns[at.value];
      Put(s, id, InTurn(number)).(
        turns := s.turns[at.value := t.(chain := t.chain + [Entry(id, Some(text), name, Waiting)])],
        marks := s.marks[id := prev], follows := s.follows[id := prev], superseded := s.superseded + {prev})
    else Refuse(s, id)
  }

  function MarkStep(s: Thread, id: Id): Thread
    requires id in s.marks
  {
    var prev := s.marks[id];
    var jobs := if prev in s.jobs then s.jobs[prev := s.jobs[prev].(stage := Superseded)] else s.jobs;
    s.(marks := s.marks - {id}, jobs := jobs)
  }

  function SetTurn(s: Thread, i: nat, t: Turn): Thread
    requires i < |s.turns|
  {
    s.(turns := s.turns[i := t])
  }

  /** The inbox drained: what waited is out of it, but for what the wrapper renamed meanwhile. */
  function Emptied(chain: seq<Entry>, late: set<nat>): (r: seq<Entry>)
    ensures |r| == |chain|
    ensures forall k :: 0 <= k < |chain| ==>
      r[k] == if !chain[k].file.Waiting? then chain[k] else chain[k].(file := if chain[k].name in late then Delivered else Taken)
  {
    seq(|chain|, k requires 0 <= k < |chain| =>
      if !chain[k].file.Waiting? then chain[k] else chain[k].(file := if chain[k].name in late then Delivered else Taken))
  }

  function Moved(place: map<Id, Place>, ids: seq<Id>, p: Place): map<Id, Place> {
    map id | id in place.Keys + (set x | x in ids) :: if id in ids then p else place[id]
  }

  /** What the sweep takes from the inbox goes ahead of the queue. A stopped turn keeps its inbox. */
  function Drained(s: Thread, i: nat): Thread
    requires i < |s.turns|
  {
    var t := s.turns[i];
    if t.stopped then s
    else
      var ids := WaitingIds(t.chain);
      SetTurn(s, i, t.(chain := Emptied(t.chain, {}))).(queue := ids + s.queue, place := Moved(s.place, ids, Queued))
  }

  /** The target is reported, unless a later ask answers it, its job is gone, or it is being reported. */
  function Reply(s: Thread, t: Target): Thread {
    if t.id !in s.jobs || s.jobs[t.id].stage.Reporting? then s
    else if !t.report || s.jobs[t.id].stage.Superseded? then s.(jobs := s.jobs - {t.id})
    else s.(jobs := s.jobs[t.id := s.jobs[t.id].(stage := Reporting)], answers := s.answers + multiset{Report(t.id)})
  }

  /** `onTurnDone`. */
  function TurnDone(s: Thread, chain: seq<Entry>): Thread
    requires chain != [] && chain[0].file.Delivered?
  {
    var t := TurnTarget(chain);
    var gone := set id | id in t.superseded && id in s.jobs && !s.jobs[id].stage.Reporting?;
    Reply(FailAll(s.(jobs := s.jobs - gone), t.lost), t)
  }

  function Leave(place: map<Id, Place>, number: nat): map<Id, Place> {
    map id | id in place :: if place[id] == InTurn(number) then Out else place[id]
  }

  /** The turn drained and out of the runner's hands, its end still to be told. */
  function TurnOver(s: Thread, i: nat): Thread
    requires i < |s.turns|
  {
    var s1 := Drained(s, i);
    var t := s1.turns[i];
    SetTurn(s1, i, t.(swept := true, reported := true)).(place := Leave(s1.place, t.number), settled := s1.settled + {t.number})
  }

  function SweepStep(s: Thread, i: nat): Thread
    requires i < |s.turns| && s.turns[i].chain != [] && s.turns[i].chain[0].file.Delivered?
  {
    if s.turns[i].reported then SetTurn(Drained(s, i), i, Drained(s, i).turns[i].(swept := true))
    else TurnDone(TurnOver(s, i), Look(TurnOver(s, i).turns[i].chain))
  }

  function SweepEndStep(s: Thread, i: nat): Thread
    requires i < |s.turns|
  {
    s.(turns := s.turns[..i] + s.turns[i + 1..], place := Leave(s.place, s.turns[i].number))
  }

  /** The drain removes by force, so a file the wrapper has renamed since counts as dropped too. */
  function DropStep(s: Thread, late: set<nat>, left: seq<nat>): Thread {
    var unread := if s.turns == [] then [] else WaitingIds(s.turns[0].chain);
    var turns := if s.turns == [] then []
                 else s.turns[0 := s.turns[0].(chain := Emptied(s.turns[0].chain, late), listed := left)];
    var s1 := FailAll(s, s.queue + unread);
    s1.(queue := [], turns := turns, place := Moved(s.place, s.queue + unread, Out))
  }

  function CancelStep(s: Thread, id: Id): Thread {
    if id !in s.jobs || s.jobs[id].stage.Superseded? || s.jobs[id].stage.Reporting? then s
    else s.(jobs := s.jobs - {id}, cancelled := s.cancelled + {id})
  }

  function CancelAskStep(s: Thread, id: Id): Thread {
    var at := FindTurn(s.turns, id);
    if at.Some? then
      var t := s.turns[at.value];
      if t.ended || t.chain == [] || t.chain[|t.chain| - 1].id != id then s
      else SetTurn(s, at.value, t.(reported := true, stopped := true))
    else if id in s.queue then
      s.(queue := WithoutId(s.queue, id), place := s.place[id := Out])
    else s
  }

  function WithoutId(q: seq<Id>, id: Id): (r: seq<Id>)
    ensures forall x :: x in r <==> x in q && x != id
  {
    if q == [] then [] else (if q[0] == id then [] else [q[0]]) + WithoutId(q[1..], id)
  }

  /** The tombstones behind a canceled ask, at most a hundred. */
  function Buried(jobs: map<Id, JobFile>, prev: Option<Id>, n: nat): map<Id, JobFile>
    decreases n
  {
    if n == 0 || prev.None? || prev.value !in jobs || !jobs[prev.value].stage.Superseded? then jobs
    else Buried(jobs - {prev.value}, jobs[prev.value].steerOf, n - 1)
  }

  function ReconcileStep(s: Thread, id: Id): Thread {
    if id !in s.jobs || InFlight(s, id) then s
    else
      match s.jobs[id].stage
      case Preparing => Put(s, id, Fetching)
      case Sent =>
        if FindTurn(s.turns, id).Some? || id in s.queue then s
        else if id in s.place && s.place[id].Stranded? then Put(Fail(s, id), id, Out)
        else Fail(s, id)
      case _ => s
  }

  function Awake(p: Place): Place {
    if p.Fetching? || p.Sending? || p.Steering? || p.Joining? || p.Starting? then Stranded else p
  }

  /** The agent dies and its successor takes the turns on disk up again; `died` ended meanwhile. */
  function Restarted(s: Thread, died: set<nat>): Thread {
    var turns := seq(|s.turns|, i requires 0 <= i < |s.turns| =>
      s.turns[i].(ended := s.turns[i].ended || s.turns[i].number in died, stopped := false, reported := false, swept := false));
    s.(turns := turns, marks := map[], place := map id | id in s.place :: Awake(s.place[id]))
  }

  ghost function Step(s: Thread, a: Action): Thread
    requires Enabled(s, a)
  {
    match a
    case Ask(id) => Put(s, id, Fetching).(jobs := s.jobs[id := JobFile(Preparing, None)])
    case PrepareFailed(id) => PrepareFailedStep(s, id)
    case PrepareTimedOut(id) => Put(s, id, Out).(jobs := s.jobs - {id}, untold := s.untold + {id})
    case Prepared(id) => PreparedStep(s, id)
    case SendDone(id, how) => SendDoneStep(s, id, how)
    case StartNext => Put(s, s.queue[0], Starting(false)).(queue := s.queue[1..])
    case Start(id) => StartStep(s, id)
    case SteerBegin(id, prev) => Put(s, id, Steering(prev)).(jobs := s.jobs[id := JobFile(Sent, Some(prev))])
    case SteerFind(id) => SteerFindStep(s, id)
    case SteerDecide(id, text, open, name) => SteerDecideStep(s, id, text, open, name)
    case Mark(id) => MarkStep(s, id)
    case Tick(i, listed) => SetTurn(s, i, s.turns[i].(listed := listed))
    case Deliver(i) =>
      var t := s.turns[i];
      SetTurn(s, i, t.(chain := Claimed(t.chain, t.listed[0]), listed := t.listed[1..]))
    case Stop(i) => SetTurn(s, i, s.turns[i].(stopped := true))
    case Exit(i) => SetTurn(s, i, s.turns[i].(ended := true))
    case Sweep(i) => SweepStep(s, i)
    case SweepEnd(i) => SweepEndStep(s, i)
    case Drop(late, left) => DropStep(s, late, left)
    case Cancel(id) => CancelStep(s, id)
    case CancelAsk(id) => CancelAskStep(s, id)
    case CancelRest(tomb) => s.(jobs := Buried(s.jobs, tomb, 100))
    case ScriptEnd(id) => s.(jobs := s.jobs - {id}, failing := s.failing - {id})
    case Reconcile(id) => ReconcileStep(s, id)
    case Restart(died) => Restarted(s, died)
  }
}
