/** Over whole runs: each ask that no follow-up replaced gets one answer, and no ask two. */
module AskAnswers {
  import opened Common
  import opened AskChain

  function Count(s: Thread, id: Id): nat {
    s.answers[Report(id)] + s.answers[Failure(id)]
  }

  // ---- What every step keeps ----

  /** One line: no ask twice, and each joined the one before it, which is superseded. */
  ghost predicate Linear(s: Thread, chain: seq<Entry>) {
    && (forall j, k :: 0 <= j < k < |chain| ==> chain[j].id != chain[k].id)
    && (forall j, k :: 0 <= j && k == j + 1 && k < |chain| ==> Joined(s, chain[j].id, chain[k].id))
  }

  ghost predicate Joined(s: Thread, prev: Id, id: Id) {
    id in s.follows && s.follows[id] == prev && prev in s.superseded
  }

  /** The ask got as far as the chat. */
  ghost predicate Entered(s: Thread, id: Id) {
    && id in s.place && !s.place[id].Fetching? && !s.place[id].Sending? && !s.place[id].Steering? && !s.place[id].Joining?
    && (id in s.jobs ==> !s.jobs[id].stage.Preparing?)
  }

  /** Nothing is left to tell of the ask from its job file. */
  ghost predicate Closed(s: Thread, id: Id) {
    id in s.place && (id in s.jobs ==> s.jobs[id].stage.Reporting?)
  }

  /** A lost or dropped follow-up: its asker is told, unless there was no job file left to tell from. */
  ghost predicate Told(s: Thread, id: Id) {
    && id in s.place && s.place[id].Out?
    && (id in s.jobs ==> s.answers[Failure(id)] > 0)
  }

  /** An ask of a turn still to be swept is in the turn, or was dropped, its file removed or claimed too late. */
  ghost predicate EntryOk(s: Thread, e: Entry, number: nat) {
    && e.id in s.place
    && if s.place[e.id] == InTurn(number) then !e.file.Taken?
       else Told(s, e.id) && s.answers[Report(e.id)] == 0 && !e.file.Waiting?
  }

  /** No two files of an inbox have one number. */
  ghost predicate Named(chain: seq<Entry>) {
    forall j, k :: 0 <= j < k < |chain| && !chain[j].file.Taken? && !chain[k].file.Taken? ==> chain[j].name != chain[k].name
  }

  ghost predicate Unsettled(s: Thread, t: Turn) {
    && t.number !in s.settled && t.chain != []
    && (t.swept ==> t.reported)
    && (t.reported ==> t.stopped && t.chain[|t.chain| - 1].id in s.cancelled)
    && (forall k :: 0 <= k < |t.chain| ==> EntryOk(s, t.chain[k], t.number))
  }

  ghost predicate Settled(s: Thread, t: Turn) {
    && t.number in s.settled && t.ended
    && (t.reported ==> t.swept)
    && (forall k :: 0 <= k < |t.chain| && t.chain[k].file.Waiting? ==> t.swept && Told(s, t.chain[k].id))
    && (forall k, j :: 0 <= k <= j < |t.chain| && Look(t.chain)[j].file.Delivered? ==> Closed(s, t.chain[k].id))
  }

  ghost predicate TurnOk(s: Thread, t: Turn)
  {
    && (t.swept ==> t.ended)
    && t.chain != [] && t.chain[0].file.Delivered? && Linear(s, t.chain) && Named(t.chain)
    && (forall k :: 0 <= k < |t.chain| ==> Entered(s, t.chain[k].id))
    && (Unsettled(s, t) || Settled(s, t))
  }

  ghost predicate In(s: Thread, id: Id, t: Turn) {
    && t.number !in s.settled && id in s.place && s.place[id] == InTurn(t.number)
    && exists k :: 0 <= k < |t.chain| && t.chain[k].id == id && !t.chain[k].file.Taken?
  }

  ghost predicate TurnsOk(s: Thread) {
    && Numbered(s)
    && (forall i :: 0 <= i < |s.turns| ==> TurnOk(s, s.turns[i]))
    && (forall id :: id in s.place && s.place[id].InTurn? ==> Found(s, id))
  }

  ghost predicate Numbered(s: Thread) {
    && (forall i, j :: 0 <= i < j < |s.turns| ==> s.turns[i].number != s.turns[j].number)
    && (forall n :: n in s.settled ==> n < s.started) && (forall i :: 0 <= i < |s.turns| ==> s.turns[i].number < s.started)
  }

  ghost predicate Found(s: Thread, id: Id) {
    exists i :: 0 <= i < |s.turns| && In(s, id, s.turns[i])
  }

  ghost predicate QueueOk(s: Thread) {
    && (forall i, j :: 0 <= i < j < |s.queue| ==> s.queue[i] != s.queue[j])
    && (forall id :: id in s.queue ==> id in s.place && s.place[id].Queued? && Entered(s, id))
    && (forall id :: id in s.place && s.place[id].Queued? ==> id in s.queue)
  }

  /** What the job file of an ask on its way says. */
  ghost predicate OnItsWay(s: Thread, id: Id)
    requires id in s.place
  {
    && id in s.jobs
    && match s.place[id]
       case Fetching => s.jobs[id].stage.Preparing?
       case Stranded => s.jobs[id].stage.Preparing? || s.jobs[id].stage.Sent?
       case _ => s.jobs[id].stage.Sent?
  }

  /** No turn's end reports it any more: Claude has it and a follow-up stands behind it in its turn, or it is over. */
  ghost predicate Passed(s: Thread, id: Id) {
    id in s.place && (s.place[id].Out? || exists i :: 0 <= i < |s.turns| && Behind(s, id, s.turns[i]))
  }

  ghost predicate Behind(s: Thread, id: Id, t: Turn)
    requires id in s.place
  {
    s.place[id] == InTurn(t.number) && exists j, k :: 0 <= j && k == j + 1 && k < |t.chain| && t.chain[j].id == id && t.chain[j].file.Delivered? && t.chain[k].id != id
  }

  ghost predicate JobOk(s: Thread, id: Id)
    requires id in s.place
  {
    && (id in s.cancelled ==> id !in s.jobs)
    && (!s.place[id].Out? && id !in s.cancelled && id !in s.superseded ==> OnItsWay(s, id))
    && (id in s.jobs && s.jobs[id].stage.Preparing? ==> s.place[id].Fetching? || s.place[id].Stranded?)
    && (id in s.jobs && s.jobs[id].stage.Reporting? ==> s.place[id].Out? && s.answers[Report(id)] > 0)
    && (id in s.jobs && s.jobs[id].stage.Superseded? ==> id in s.superseded)
    && (id in s.jobs && id in s.superseded ==> s.jobs[id].stage.Superseded? || id in s.marks.Values || Passed(s, id))
  }

  ghost predicate AnswerOk(s: Thread, id: Id)
    requires id in s.place
  {
    && Count(s, id) <= 1
    && (!s.place[id].Out? ==> Count(s, id) == 0)
    && (s.place[id].Out? && id !in s.cancelled && id !in s.superseded && id !in s.untold ==> Count(s, id) == 1)
    && (id in s.untold ==> s.place[id].Out? && id !in s.jobs && Count(s, id) == 0)
    && (id in s.superseded ==> s.answers[Report(id)] == 0)
    && (Count(s, id) > 0 && id in s.jobs ==> id in s.failing || s.jobs[id].stage.Reporting?)
    && (id in s.failing ==> Count(s, id) > 0)
  }

  ghost predicate AskOk(s: Thread, id: Id) {
    && (id in s.superseded || id in s.follows ==> Entered(s, id))
    && if id in s.place then
         JobOk(s, id) && AnswerOk(s, id) && (s.place[id].Starting? ==> Entered(s, id))
       else
         id !in s.jobs && id !in s.cancelled && id !in s.failing && id !in s.untold && Count(s, id) == 0
  }

  ghost predicate AsksOk(s: Thread) {
    && (forall id :: AskOk(s, id))
    && (forall id :: id in s.marks ==> id in s.follows && s.marks[id] in s.superseded)
  }

  ghost predicate Inv(s: Thread) {
    TurnsOk(s) && QueueOk(s) && AsksOk(s)
  }

  // ---- The windows between two steps of another call ----

  /** The inbox as a sweep leaves it: drained, unless the turn was stopped. */
  function AfterDrain(t: Turn): (r: seq<Entry>)
    ensures |r| == |t.chain| && (t.chain != [] && t.chain[0].file.Delivered? ==> r[0].file.Delivered?)
  {
    if t.stopped then t.chain else Emptied(t.chain, {})
  }

  /** The place in the chain of the ask that the turn's end answers. */
  function Answers(t: Turn): (k: nat)
    requires t.chain != [] && t.chain[0].file.Delivered?
    ensures k < |t.chain|
  {
    LastDelivered(Look(AfterDrain(t)))
  }

  /** The sweep would report an ask that a follow-up has joined, its job file not yet saying so. */
  ghost predicate Early(s: Thread, i: nat)
    requires i < |s.turns| && s.turns[i].chain != [] && s.turns[i].chain[0].file.Delivered?
  {
    var t := s.turns[i];
    !t.reported && Reports(s, t.chain, Answers(t)) && t.chain[Answers(t)].id in s.marks.Values
  }

  /**
   * The sweep would tell an ask whose `--fail` script still runs: one that a drop failed and the wrapper claimed
   * all the same, or whose number another file has by now.
   */
  ghost predicate Retold(s: Thread, i: nat)
    requires i < |s.turns| && s.turns[i].chain != [] && s.turns[i].chain[0].file.Delivered?
  {
    var t := s.turns[i];
    var k := Answers(t);
    && !t.reported
    && (|| (Reports(s, t.chain, k) && t.chain[k].id in s.failing)
        || exists j :: k < j < |t.chain| && Loses(s, t, j))
  }

  ghost predicate Loses(s: Thread, t: Turn, j: nat)
    requires j < |t.chain|
  {
    Look(AfterDrain(t))[j].file.Waiting? && t.chain[j].id in s.jobs && t.chain[j].id in s.failing
  }

  ghost predicate Reports(s: Thread, chain: seq<Entry>, k: nat)
    requires k < |chain|
  {
    var id := chain[k].id;
    k == |chain| - 1 && id in s.jobs && !s.jobs[id].stage.Reporting? && !s.jobs[id].stage.Superseded?
  }

  /** `reconcile` would fail an ask that is on its way into a turn, or whose failure is being told. */
  ghost predicate Stray(s: Thread, id: Id) {
    && id in s.jobs && s.jobs[id].stage.Sent? && id in s.place && !InFlight(s, id) && FindTurn(s.turns, id).None? && id !in s.queue
    && (id in s.failing || s.place[id].Steering? || s.place[id].Joining? || s.place[id].Starting?)
  }

  /** A drop would fail a follow-up again whose loss a sweep has told, its `--fail` script not yet over. */
  ghost predicate Relost(s: Thread) {
    && s.turns != [] && s.turns[0].number in s.settled
    && exists k :: 0 <= k < |s.turns[0].chain| && s.turns[0].chain[k].file.Waiting? && s.turns[0].chain[k].id in s.jobs
  }

  /** The first turn's end has been told, and the inbox of its lost follow-ups is still there. */
  ghost predicate FirstLittered(s: Thread) {
    && s.turns != [] && s.turns[0].number in s.settled
    && exists k :: 0 <= k < |s.turns[0].chain| && s.turns[0].chain[k].file.Waiting?
  }

  /** A swept turn, not yet out of the map, still has the inbox of its lost follow-ups. */
  ghost predicate Littered(s: Thread) {
    exists i, k :: 0 <= i < |s.turns| && s.turns[i].number in s.settled && 0 <= k < |s.turns[i].chain| && s.turns[i].chain[k].file.Waiting?
  }

  /** A joined ask that a turn's end could still report, its job file not saying that it was joined. */
  ghost predicate Unsaid(s: Thread, id: Id) {
    id in s.jobs && !s.jobs[id].stage.Superseded? && !Passed(s, id)
  }

  /** The agent dies with a steer or a turn's end half told. */
  ghost predicate Torn(s: Thread, a: Action) {
    a.Restart? && (Littered(s) || exists id :: id in s.marks && Unsaid(s, s.marks[id]))
  }

  ghost predicate Clean(s: Thread, a: Action)
    requires Enabled(s, a)
  {
    !Torn(s, a) && (a.Sweep? ==> !Early(s, a.turn) && !Retold(s, a.turn)) && (a.Reconcile? ==> !Stray(s, a.id)) && (a.Drop? ==> !Relost(s))
  }

  // ---- Steps that move one ask ----

  /** `s'` differs from `s` only in what it says of `id`, which is in no running turn. */
  ghost predicate Apart(s: Thread, s': Thread, id: Id) {
    && s'.turns == s.turns && s'.started == s.started && s'.settled == s.settled && s'.follows == s.follows
    && s'.superseded == s.superseded && s'.marks == s.marks
    && (forall x :: x != id ==> Same(s, s', x))
    && (id in s.place ==> !s.place[id].InTurn? && (s.place[id].Out? ==> StaysOut(s, s', id)))
    && (id in s'.place ==> !s'.place[id].InTurn?)
    && (Entered(s, id) ==> Entered(s', id) && (id in s.cancelled ==> id in s'.cancelled) && (Closed(s, id) ==> Closed(s', id)))
    && s'.answers[Report(id)] == s.answers[Report(id)] && s'.answers[Failure(id)] >= s.answers[Failure(id)]
  }

  ghost predicate Same(s: Thread, s': Thread, x: Id) {
    && (x in s'.place <==> x in s.place) && (x in s.place ==> s'.place[x] == s.place[x])
    && (x in s'.jobs <==> x in s.jobs) && (x in s.jobs ==> s'.jobs[x] == s.jobs[x])
    && (x in s'.cancelled <==> x in s.cancelled) && (x in s'.failing <==> x in s.failing) && (x in s'.untold <==> x in s.untold)
    && s'.answers[Report(x)] == s.answers[Report(x)] && s'.answers[Failure(x)] == s.answers[Failure(x)]
  }

  ghost predicate StaysOut(s: Thread, s': Thread, id: Id) {
    && id in s'.place && s'.place[id].Out?
    && (id in s'.jobs ==> id in s.jobs && s'.jobs[id] == s.jobs[id])
  }

  /** What a turn's chain rests on has not changed for `x`. */
  ghost predicate Seen(s: Thread, s': Thread, x: Id) {
    Entered(s, x) ==>
      && Entered(s', x)
      && (s.place[x].Out? ==> s'.place[x].Out? && s'.answers[Report(x)] == s.answers[Report(x)])
      && (Closed(s, x) ==> Closed(s', x)) && (Told(s, x) ==> Told(s', x)) && (x in s.cancelled ==> x in s'.cancelled)
  }

  ghost predicate Later(s: Thread, s': Thread) {
    && s.superseded <= s'.superseded
    && (forall x :: x in s.follows ==> x in s'.follows && s'.follows[x] == s.follows[x])
  }

  ghost predicate Stay(s: Thread, s': Thread, number: nat) {
    forall x :: x in s.place && s.place[x] == InTurn(number) ==> x in s'.place && s'.place[x] == s.place[x]
  }

  lemma TurnKept(s: Thread, s': Thread, t: Turn)
    requires TurnOk(s, t) && Later(s, s') && (t.number in s'.settled <==> t.number in s.settled) && Stay(s, s', t.number)
    requires forall k :: 0 <= k < |t.chain| ==> Seen(s, s', t.chain[k].id)
    ensures TurnOk(s', t)
  {
    forall k | 0 <= k < |t.chain|
      ensures Entered(s', t.chain[k].id)
    {
      assert Entered(s, t.chain[k].id);
    }
    forall j, k | 0 <= j && k == j + 1 && k < |t.chain|
      ensures Joined(s', t.chain[j].id, t.chain[k].id)
    {
      assert Joined(s, t.chain[j].id, t.chain[k].id);
    }
    if Unsettled(s, t) {
      forall k | 0 <= k < |t.chain|
        ensures EntryOk(s', t.chain[k], t.number)
      {
        assert EntryOk(s, t.chain[k], t.number) && Entered(s, t.chain[k].id);
      }
      assert Unsettled(s', t);
    } else {
      forall k, j | 0 <= k <= j < |t.chain| && Look(t.chain)[j].file.Delivered?
        ensures Closed(s', t.chain[k].id)
      {
        assert Closed(s, t.chain[k].id) && Entered(s, t.chain[k].id);
      }
      forall k | 0 <= k < |t.chain| && t.chain[k].file.Waiting?
        ensures Told(s', t.chain[k].id)
      {
        assert Told(s, t.chain[k].id) && Entered(s, t.chain[k].id);
      }
      assert Settled(s', t);
    }
  }

  lemma TurnsKept(s: Thread, s': Thread)
    requires TurnsOk(s) && s'.turns == s.turns && Later(s, s') && s'.settled == s.settled && s'.started == s.started
    requires forall x :: Seen(s, s', x)
    requires forall x :: x in s.place && s.place[x].InTurn? ==> x in s'.place && s'.place[x] == s.place[x]
    requires forall x :: x in s'.place && s'.place[x].InTurn? ==> x in s.place && s.place[x] == s'.place[x]
    ensures TurnsOk(s')
  {
    forall i | 0 <= i < |s'.turns|
      ensures TurnOk(s', s'.turns[i]) && Continues(s.turns[i], s'.turns[i])
    {
      TurnKept(s, s', s.turns[i]);
    }
    hide TurnOk, Seen, Continues;
    TurnsBuilt(s, s');
  }

  lemma TurnsBuilt(s: Thread, s': Thread)
    requires TurnsOk(s) && |s'.turns| == |s.turns| && s'.settled == s.settled && s'.started == s.started
    requires forall i :: 0 <= i < |s.turns| ==> TurnOk(s', s'.turns[i]) && Continues(s.turns[i], s'.turns[i])
    requires forall x :: x in s'.place && s'.place[x].InTurn? ==> x in s.place && s.place[x] == s'.place[x]
    ensures TurnsOk(s')
  {
    hide TurnOk;
    assert forall i :: 0 <= i < |s.turns| ==> s'.turns[i].number == s.turns[i].number;
    hide Continues;
    forall x | x in s'.place && s'.place[x].InTurn?
      ensures Found(s', x)
    {
      assert Found(s, x);
      FoundKept(s, s', x);
    }
  }

  /** The same asks in the same order, and perhaps more; what Claude has taken in it has. */
  ghost predicate Carries(t: Turn, t': Turn) {
    && t'.number == t.number && |t'.chain| >= |t.chain|
    && (forall k :: 0 <= k < |t.chain| ==> t'.chain[k].id == t.chain[k].id && (t.chain[k].file.Delivered? ==> t'.chain[k].file.Delivered?))
  }

  ghost predicate Continues(t: Turn, t': Turn) {
    Carries(t, t') && forall k :: 0 <= k < |t.chain| && !t.chain[k].file.Taken? ==> !t'.chain[k].file.Taken?
  }

  lemma PassedKept(s: Thread, s': Thread, x: Id)
    requires Passed(s, x) && x in s'.place && (s'.place[x] == s.place[x] || s'.place[x].Out?)
    requires |s'.turns| >= |s.turns| && forall i :: 0 <= i < |s.turns| ==> Carries(s.turns[i], s'.turns[i])
    ensures Passed(s', x)
  {
    if !s'.place[x].Out? {
      var i :| 0 <= i < |s.turns| && Behind(s, x, s.turns[i]);
      var j, k :| 0 <= j && k == j + 1 && k < |s.turns[i].chain| && s.turns[i].chain[j].id == x && s.turns[i].chain[j].file.Delivered?
        && s.turns[i].chain[k].id != x;
      var t' := s'.turns[i];
      assert Carries(s.turns[i], t');
      assert t'.chain[j].id == x && t'.chain[j].file.Delivered? && t'.chain[k].id != x;
      assert Behind(s', x, t');
    }
  }

  lemma FoundKept(s: Thread, s': Thread, x: Id)
    requires Found(s, x) && |s'.turns| >= |s.turns| && s'.settled == s.settled
    requires forall i :: 0 <= i < |s.turns| ==> Continues(s.turns[i], s'.turns[i])
    requires x in s'.place && s'.place[x] == s.place[x]
    ensures Found(s', x)
  {
    var i :| 0 <= i < |s.turns| && In(s, x, s.turns[i]);
    var k :| 0 <= k < |s.turns[i].chain| && s.turns[i].chain[k].id == x && !s.turns[i].chain[k].file.Taken?;
    assert Continues(s.turns[i], s'.turns[i]);
    assert s'.turns[i].chain[k].id == x;
    assert In(s', x, s'.turns[i]);
  }

  lemma TurnsApart(s: Thread, s': Thread, id: Id)
    requires Apart(s, s', id) && TurnsOk(s)
    ensures TurnsOk(s')
  {
    hide TurnsOk;
    forall x
      ensures Seen(s, s', x)
      ensures x in s'.place && s'.place[x].InTurn? ==> x in s.place && s.place[x] == s'.place[x]
      ensures x in s.place && s.place[x].InTurn? ==> x in s'.place && s.place[x] == s'.place[x]
    {
      if x != id { assert Same(s, s', x); }
    }
    TurnsKept(s, s');
  }

  lemma AsksApart(s: Thread, s': Thread, id: Id)
    requires Apart(s, s', id) && AsksOk(s) && AskOk(s', id)
    ensures AsksOk(s')
  {
    forall x
      ensures AskOk(s', x)
    {
      if x != id { assert Same(s, s', x) && AskOk(s, x); }
    }
  }

  lemma QueueApart(s: Thread, s': Thread, id: Id)
    requires QueueOk(s) && Apart(s, s', id) && s'.queue == s.queue && id !in s.queue
    requires id in s'.place ==> !s'.place[id].Queued?
    ensures QueueOk(s')
  {
    forall x | x in s.queue
      ensures x in s'.place && s'.place[x].Queued? && Entered(s', x)
    {
      assert Same(s, s', x) && Entered(s, x);
    }
    forall x | x in s'.place && s'.place[x].Queued?
      ensures x in s'.queue
    {
      assert Same(s, s', x);
    }
  }

  /** A step on an ask that is neither queued nor in a turn, before or after. */
  lemma OneKeeps(s: Thread, s': Thread, id: Id)
    requires Inv(s) && Apart(s, s', id) && AskOk(s', id)
    requires s'.queue == s.queue && (id in s.place ==> !s.place[id].Queued?) && (id in s'.place ==> !s'.place[id].Queued?)
    ensures Inv(s')
  {
    TurnsApart(s, s', id);
    AsksApart(s, s', id);
    QueueApart(s, s', id);
  }

  lemma AskKeeps(s: Thread, id: Id)
    requires Inv(s) && Enabled(s, Ask(id))
    ensures Inv(Step(s, Ask(id)))
  {
    hide TurnsOk, QueueOk;
    assert AskOk(s, id);
    OneKeeps(s, Step(s, Ask(id)), id);
  }

  lemma PrepareKeeps(s: Thread, id: Id)
    requires Inv(s) && id in s.place && s.place[id].Fetching?
    ensures Inv(PrepareFailedStep(s, id)) && Inv(PreparedStep(s, id)) && Inv(Step(s, PrepareTimedOut(id)))
  {
    hide TurnsOk, QueueOk;
    assert AskOk(s, id);
    OneKeeps(s, PrepareFailedStep(s, id), id);
    OneKeeps(s, PreparedStep(s, id), id);
    OneKeeps(s, Step(s, PrepareTimedOut(id)), id);
  }

  lemma ScriptEndKeeps(s: Thread, id: Id)
    requires Inv(s) && Enabled(s, ScriptEnd(id))
    ensures Inv(Step(s, ScriptEnd(id)))
  {
    hide TurnsOk, QueueOk;
    assert AskOk(s, id);
    OneKeeps(s, Step(s, ScriptEnd(id)), id);
  }

  lemma SendDoneKeeps(s: Thread, id: Id, how: AskChain.Sending)
    requires Inv(s) && id in s.place && s.place[id].Sending?
    ensures Inv(SendDoneStep(s, id, how))
  {
    hide TurnsOk, QueueOk;
    var s' := SendDoneStep(s, id, how);
    assert AskOk(s, id);
    if how.IntoQueue? {
      QueuedKeeps(s, s', id);
    } else {
      OneKeeps(s, s', id);
    }
  }

  lemma QueuedKeeps(s: Thread, s': Thread, id: Id)
    requires Inv(s) && Apart(s, s', id) && AskOk(s', id)
    requires id in s.place && !s.place[id].Queued? && id in s'.place && s'.place[id].Queued? && Entered(s', id)
    requires s'.queue == s.queue + [id]
    ensures Inv(s')
  {
    TurnsApart(s, s', id);
    AsksApart(s, s', id);
    forall x | x in s'.queue
      ensures x in s'.place && s'.place[x].Queued? && Entered(s', x)
    {
      if x != id { assert Same(s, s', x) && Entered(s, x); }
    }
    forall x | x in s'.place && s'.place[x].Queued?
      ensures x in s'.queue
    {
      if x != id { assert Same(s, s', x); }
      assert s'.queue[|s.queue|] == id;
    }
  }

  lemma StartNextKeeps(s: Thread)
    requires Inv(s) && s.queue != []
    ensures Inv(Step(s, StartNext))
  {
    var s', id := Step(s, StartNext), s.queue[0];
    assert id in s.queue && AskOk(s, id);
    TurnsApart(s, s', id);
    AsksApart(s, s', id);
    forall x | x in s'.queue
      ensures x != id && x in s'.place && s'.place[x].Queued? && Entered(s', x)
    {
      assert Same(s, s', x) && x in s.queue && Entered(s, x);
    }
    forall x | x in s'.place && s'.place[x].Queued?
      ensures x in s'.queue
    {
      assert Same(s, s', x) && x in s.queue;
    }
  }

  lemma SteerBeginKeeps(s: Thread, id: Id, prev: Id)
    requires Inv(s) && Enabled(s, SteerBegin(id, prev))
    ensures Inv(Step(s, SteerBegin(id, prev)))
  {
    hide TurnsOk, QueueOk;
    assert AskOk(s, id);
    OneKeeps(s, Step(s, SteerBegin(id, prev)), id);
  }

  lemma RefuseKeeps(s: Thread, id: Id)
    requires Inv(s) && id in s.place && (s.place[id].Steering? || s.place[id].Joining?)
    ensures Inv(Refuse(s, id))
  {
    hide TurnsOk, QueueOk;
    assert AskOk(s, id);
    OneKeeps(s, Refuse(s, id), id);
  }

  lemma SteerFindKeeps(s: Thread, id: Id)
    requires Inv(s) && id in s.place && s.place[id].Steering?
    ensures Inv(SteerFindStep(s, id))
  {
    hide TurnsOk, QueueOk;
    assert AskOk(s, id);
    if SteerFindStep(s, id) == Refuse(s, id) {
      RefuseKeeps(s, id);
    } else {
      OneKeeps(s, SteerFindStep(s, id), id);
    }
  }

  /** An ask in no turn's chain and not queued is in neither place. */
  lemma NotInChat(s: Thread, id: Id)
    requires TurnsOk(s) && QueueOk(s) && id in s.place
    requires (forall i :: 0 <= i < |s.turns| ==> !Holds(s.turns[i], id)) && id !in s.queue
    ensures !s.place[id].InTurn? && !s.place[id].Queued?
  {
    hide TurnOk;
    assert forall i :: 0 <= i < |s.turns| ==> !In(s, id, s.turns[i]);
  }

  lemma LostKeeps(s: Thread, id: Id)
    requires Inv(s) && id in s.jobs && s.jobs[id].stage.Sent? && id !in s.failing
    requires id in s.place && (s.place[id].Stranded? || s.place[id].Out?)
    ensures Inv(if s.place[id].Stranded? then Put(Fail(s, id), id, Out) else Fail(s, id))
  {
    hide TurnsOk, QueueOk;
    assert AskOk(s, id);
    OneKeeps(s, if s.place[id].Stranded? then Put(Fail(s, id), id, Out) else Fail(s, id), id);
  }

  lemma ReconcileKeeps(s: Thread, id: Id)
    requires Inv(s) && !Stray(s, id)
    ensures Inv(ReconcileStep(s, id))
  {
    hide TurnsOk, QueueOk, Holds;
    assert AskOk(s, id);
    if id in s.jobs && !InFlight(s, id) {
      hide AskOk;
      match s.jobs[id].stage
      case Preparing =>
        PreparedAgain(s, id);
      case Sent =>
        if FindTurn(s.turns, id).None? && id !in s.queue {
          NotInChat(s, id);
          LostKeeps(s, id);
        }
      case _ =>
    }
  }

  lemma PreparedAgain(s: Thread, id: Id)
    requires Inv(s) && id in s.jobs && s.jobs[id].stage.Preparing? && !InFlight(s, id)
    ensures Inv(Put(s, id, Fetching))
  {
    hide TurnsOk, QueueOk;
    assert AskOk(s, id);
    OneKeeps(s, Put(s, id, Fetching), id);
  }

  // ---- Steps on a turn ----

  lemma StartKeeps(s: Thread, id: Id)
    requires Inv(s) && id in s.place && s.place[id].Starting?
    ensures Inv(StartStep(s, id))
  {
    var s' := StartStep(s, id);
    assert AskOk(s, id);
    assert TurnsOk(s') by {
      hide QueueOk, AsksOk;
      StartKeepsTurns(s, id);
    }
    hide TurnsOk;
    OthersAsk(s, s', id);
    assert forall x :: x in s.queue && Entered(s, x) ==> Entered(s', x);
    assert QueueOk(s');
  }

  lemma StartKeepsTurns(s: Thread, id: Id)
    requires TurnsOk(s) && AskOk(s, id) && id in s.place && s.place[id].Starting?
    ensures TurnsOk(StartStep(s, id))
  {
    var s', i := StartStep(s, id), |s.turns|;
    hide TurnOk;
    assert s'.turns[..i] == s.turns;
    forall j | 0 <= j < i
      ensures TurnOk(s', s'.turns[j]) && s'.turns[j].number != s.started
    {
      assert s'.turns[j] == s.turns[j] && TurnOk(s, s.turns[j]);
      TurnKept(s, s', s.turns[j]);
    }
    FirstTurn(s, id);
    forall x | x in s'.place && s'.place[x].InTurn?
      ensures Found(s', x)
    {
      if x != id {
        assert Found(s, x);
        FoundKept(s, s', x);
      }
    }
  }

  lemma FirstTurn(s: Thread, id: Id)
    requires AskOk(s, id) && id in s.place && s.place[id].Starting? && s.started !in s.settled
    ensures TurnOk(StartStep(s, id), StartStep(s, id).turns[|s.turns|]) && Found(StartStep(s, id), id)
  {
    var s', i := StartStep(s, id), |s.turns|;
    assert s'.turns[i].chain == [Entry(id, None, 0, Delivered)] && s'.turns[i].chain[0].id == id;
    assert Unsettled(s', s'.turns[i]);
    assert In(s', id, s'.turns[i]);
  }

  /** Asks other than `id` have the same said of them. */
  lemma OthersAsk(s: Thread, s': Thread, id: Id)
    requires AsksOk(s) && AskOk(s', id)
    requires forall x :: x != id ==> Same(s, s', x) && (x in s'.superseded <==> x in s.superseded)
    requires s'.follows == s.follows && s'.marks == s.marks && s.superseded <= s'.superseded
    requires |s'.turns| >= |s.turns| && forall i :: 0 <= i < |s.turns| ==> Carries(s.turns[i], s'.turns[i])
    ensures AsksOk(s')
  {
    hide Passed;
    forall x
      ensures AskOk(s', x)
    {
      if x != id {
        assert Same(s, s', x) && AskOk(s, x);
        if Passed(s, x) && x in s.place { PassedKept(s, s', x); }
      }
    }
  }

  // ---- A follow-up joins a turn ----

  function Joins(s: Thread, id: Id, i: nat, text: string, name: nat): Thread
    requires i < |s.turns| && id in s.place && s.place[id].Joining?
  {
    var prev, t := s.place[id].prev, s.turns[i];
    Put(s, id, InTurn(t.number)).(
      turns := s.turns[i := t.(chain := t.chain + [Entry(id, Some(text), name, Waiting)])],
      marks := s.marks[id := prev], follows := s.follows[id := prev], superseded := s.superseded + {prev})
  }

  lemma JoinKeepsTurn(s: Thread, id: Id, i: nat, text: string, name: nat, j: nat)
    requires AskOk(s, id) && i < |s.turns| && id in s.place && s.place[id].Joining? && Takes(s.turns[i], s.place[id].prev)
    requires j < |s.turns| && TurnOk(s, s.turns[j]) && name !in Names(s.turns[i].chain)
    ensures TurnOk(Joins(s, id, i, text, name), Joins(s, id, i, text, name).turns[j])
    ensures Continues(s.turns[j], Joins(s, id, i, text, name).turns[j])
  {
    var s' := Joins(s, id, i, text, name);
    TurnKept(s, s', s.turns[j]);
    if j == i { LongerOk(s, s', Entry(id, Some(text), name, Waiting), s.turns[i], s'.turns[i]); }
  }

  lemma LongerOk(s: Thread, s': Thread, e: Entry, t: Turn, t': Turn)
    requires TurnOk(s, t) && TurnOk(s', t) && !t.ended && !t.reported && !Entered(s, e.id) && Entered(s', e.id)
    requires t' == t.(chain := t.chain + [e]) && e.file.Waiting? && e.name !in Names(t.chain)
    requires s'.place[e.id] == InTurn(t.number) && t.chain != [] && Joined(s', t.chain[|t.chain| - 1].id, e.id)
    ensures TurnOk(s', t')
  {
    forall k | 0 <= k < |t.chain|
      ensures t.chain[k].id != e.id && EntryOk(s', t.chain[k], t.number)
    {
      assert Entered(s, t.chain[k].id);
    }
    forall j, k | 0 <= j && k == j + 1 && k < |t'.chain|
      ensures Joined(s', t'.chain[j].id, t'.chain[k].id)
    {
      if k < |t.chain| { assert Joined(s', t.chain[j].id, t.chain[k].id); }
    }
    assert Named(t'.chain) by {
      forall j | 0 <= j < |t.chain| && !t.chain[j].file.Taken?
        ensures t.chain[j].name != e.name
      {
        assert t.chain[j].name in Names(t.chain);
      }
    }
    assert Linear(s', t'.chain);
    assert Unsettled(s', t');
  }

  lemma JoinFound(s: Thread, id: Id, i: nat, text: string, name: nat)
    requires TurnsOk(s) && i < |s.turns| && id in s.place && s.place[id].Joining? && s.turns[i].number !in s.settled
    requires forall j :: 0 <= j < |s.turns| ==> Continues(s.turns[j], Joins(s, id, i, text, name).turns[j])
    ensures forall x :: x in Joins(s, id, i, text, name).place && Joins(s, id, i, text, name).place[x].InTurn? ==> Found(Joins(s, id, i, text, name), x)
  {
    hide TurnOk, Continues;
    var s' := Joins(s, id, i, text, name);
    forall x | x in s'.place && s'.place[x].InTurn?
      ensures Found(s', x)
    {
      if x == id {
        var chain := s'.turns[i].chain;
        assert chain[|chain| - 1].id == id;
        assert In(s', id, s'.turns[i]);
      } else {
        assert Found(s, x);
        FoundKept(s, s', x);
      }
    }
  }

  lemma JoinKeepsAsk(s: Thread, id: Id, i: nat, text: string, name: nat, x: Id)
    requires AskOk(s, id) && i < |s.turns| && id in s.place && s.place[id].Joining?
    requires forall m :: m in s.marks ==> m in s.follows
    requires AskOk(s, x) && s.place[id].prev != id
    requires x == s.place[id].prev ==> Entered(s, x) && s.answers[Report(x)] == 0
    requires Passed(s, x) ==> Passed(Joins(s, id, i, text, name), x)
    ensures AskOk(Joins(s, id, i, text, name), x)
  {
    hide Passed;
    var s', prev := Joins(s, id, i, text, name), s.place[id].prev;
    assert forall m :: m in s.marks ==> m in s'.marks && s'.marks[m] == s.marks[m];
    assert s'.marks[id] == prev;
    assert x in s.marks.Values ==> x in s'.marks.Values;
  }

  lemma Joinable(s: Thread, i: nat, prev: Id)
    requires TurnsOk(s) && i < |s.turns| && Takes(s.turns[i], prev)
    ensures s.turns[i].number !in s.settled && Entered(s, prev) && (s.place[prev].Out? ==> s.answers[Report(prev)] == 0)
  {
    var t := s.turns[i];
    var last := t.chain[|t.chain| - 1];
    assert TurnOk(s, t) && EntryOk(s, last, t.number);
  }

  lemma QueueKept(s: Thread, s': Thread)
    requires QueueOk(s) && s'.queue == s.queue
    requires forall x :: x in s.place && s.place[x].Queued? ==> x in s'.place && s'.place[x].Queued? && (Entered(s, x) ==> Entered(s', x))
    requires forall x :: x in s'.place && s'.place[x].Queued? ==> x in s.place && s.place[x].Queued?
    ensures QueueOk(s')
  {
  }

  lemma NotPassedYet(s: Thread, id: Id)
    requires id in s.place && s.place[id].Joining?
    ensures !Passed(s, id)
  {
  }

  lemma JoinKeepsAsks(s: Thread, id: Id, i: nat, text: string, name: nat)
    requires AsksOk(s) && QueueOk(s) && i < |s.turns| && id in s.place && s.place[id].Joining?
    requires Entered(s, s.place[id].prev) && (s.place[s.place[id].prev].Out? ==> s.answers[Report(s.place[id].prev)] == 0)
    ensures AsksOk(Joins(s, id, i, text, name)) && QueueOk(Joins(s, id, i, text, name))
  {
    var s', prev := Joins(s, id, i, text, name), s.place[id].prev;
    assert AskOk(s, prev) && AskOk(s, id);
    assert prev != id && s.answers[Report(prev)] == 0;
    assert QueueOk(s') by {
      hide AsksOk, AskOk;
      QueueKept(s, s');
    }
    hide QueueOk, Entered, Passed;
    forall x
      ensures AskOk(s', x)
    {
      assert AskOk(s, x);
      NotPassedYet(s, id);
      if Passed(s, x) {
        hide AskOk;
        PassedKept(s, s', x);
      }
      JoinKeepsAsk(s, id, i, text, name, x);
    }
  }

  lemma JoinKeepsTurns(s: Thread, id: Id, i: nat, text: string, name: nat)
    requires TurnsOk(s) && AskOk(s, id) && i < |s.turns| && id in s.place && s.place[id].Joining? && Takes(s.turns[i], s.place[id].prev)
    requires s.turns[i].number !in s.settled && name !in Names(s.turns[i].chain)
    ensures TurnsOk(Joins(s, id, i, text, name))
  {
    hide TurnOk, AskOk;
    var s' := Joins(s, id, i, text, name);
    assert Numbered(s') by {
      assert forall j :: 0 <= j < |s.turns| ==> s'.turns[j].number == s.turns[j].number;
    }
    hide Numbered;
    forall j | 0 <= j < |s.turns|
      ensures TurnOk(s', s'.turns[j]) && Continues(s.turns[j], s'.turns[j])
    {
      JoinKeepsTurn(s, id, i, text, name, j);
    }
    hide Continues;
    JoinFound(s, id, i, text, name);
  }

  lemma JoinKeeps(s: Thread, id: Id, i: nat, text: string, name: nat)
    requires Inv(s) && i < |s.turns| && id in s.place && s.place[id].Joining? && Takes(s.turns[i], s.place[id].prev)
    requires name !in Names(s.turns[i].chain)
    ensures Inv(Joins(s, id, i, text, name))
  {
    Joinable(s, i, s.place[id].prev);
    assert AskOk(s, id);
    hide TurnsOk, AsksOk, QueueOk, Joins;
    JoinKeepsAsks(s, id, i, text, name);
    JoinKeepsTurns(s, id, i, text, name);
  }

  lemma DecideKeeps(s: Thread, id: Id, text: string, open: bool, name: nat)
    requires Inv(s) && Enabled(s, SteerDecide(id, text, open, name))
    ensures Inv(SteerDecideStep(s, id, text, open, name))
  {
    var at := TurnNumbered(s.turns, s.place[id].number);
    hide Inv;
    if at.Some? && open && Takes(s.turns[at.value], s.place[id].prev) {
      JoinKeeps(s, id, at.value, text, name);
    } else {
      RefuseKeeps(s, id);
    }
  }

  // ---- Steps on job files only ----

  ghost predicate OnlyJobs(s: Thread, s': Thread) {
    && s' == s.(jobs := s'.jobs, marks := s'.marks, cancelled := s'.cancelled) && s.cancelled <= s'.cancelled
    && (forall x :: x in s'.jobs ==> x in s.jobs && (s'.jobs[x] == s.jobs[x] || (s'.jobs[x].stage.Superseded? && !s.jobs[x].stage.Reporting?)))
    && (forall m :: m in s'.marks ==> m in s.marks && s'.marks[m] == s.marks[m])
  }

  lemma JobsKeep(s: Thread, s': Thread)
    requires Inv(s) && OnlyJobs(s, s') && forall x :: AskOk(s', x)
    ensures Inv(s')
  {
    hide TurnsOk, AskOk;
    assert forall x :: Seen(s, s', x);
    TurnsKept(s, s');
    QueueKept(s, s');
  }

  lemma MarkKeeps(s: Thread, id: Id)
    requires Inv(s) && id in s.marks
    ensures Inv(MarkStep(s, id))
  {
    hide TurnsOk, QueueOk;
    var s', prev := MarkStep(s, id), s.marks[id];
    assert AskOk(s, prev);
    forall x
      ensures AskOk(s', x)
    {
      assert AskOk(s, x);
      if x in s.marks.Values && x != prev {
        var m :| m in s.marks && s.marks[m] == x;
        assert m in s'.marks && s'.marks[m] == x;
      }
    }
    JobsKeep(s, s');
  }

  lemma CancelKeeps(s: Thread, id: Id)
    requires Inv(s)
    ensures Inv(CancelStep(s, id))
  {
    hide TurnsOk, QueueOk;
    var s' := CancelStep(s, id);
    forall x
      ensures AskOk(s', x)
    {
      assert AskOk(s, x);
    }
    JobsKeep(s, s');
  }

  lemma BuriedTombstones(jobs: map<Id, JobFile>, prev: Option<Id>, n: nat)
    ensures var r := Buried(jobs, prev, n);
      && (forall x :: x in r ==> x in jobs && r[x] == jobs[x])
      && (forall x :: x in jobs && !jobs[x].stage.Superseded? ==> x in r)
    decreases n
  {
    if n > 0 && prev.Some? && prev.value in jobs && jobs[prev.value].stage.Superseded? {
      BuriedTombstones(jobs - {prev.value}, jobs[prev.value].steerOf, n - 1);
    }
  }

  lemma CancelRestKeeps(s: Thread, tomb: Option<Id>)
    requires Inv(s)
    ensures Inv(s.(jobs := Buried(s.jobs, tomb, 100)))
  {
    hide TurnsOk, QueueOk, Buried;
    var s' := s.(jobs := Buried(s.jobs, tomb, 100));
    BuriedTombstones(s.jobs, tomb, 100);
    forall x
      ensures AskOk(s', x)
    {
      assert AskOk(s, x);
    }
    JobsKeep(s, s');
  }

  // ---- Steps on one turn ----

  lemma SameAsks(s: Thread, i: nat, t: Turn)
    requires AsksOk(s) && QueueOk(s) && i < |s.turns| && Carries(s.turns[i], t)
    ensures AsksOk(SetTurn(s, i, t)) && QueueOk(SetTurn(s, i, t))
  {
    hide Passed;
    forall x
      ensures AskOk(SetTurn(s, i, t), x)
    {
      assert AskOk(s, x);
      if Passed(s, x) && x in s.place { PassedKept(s, SetTurn(s, i, t), x); }
    }
  }

  lemma OneTurnKeeps(s: Thread, i: nat, t: Turn)
    requires Inv(s) && i < |s.turns| && Continues(s.turns[i], t) && TurnOk(s, t)
    ensures Inv(SetTurn(s, i, t))
  {
    var s' := SetTurn(s, i, t);
    SameAsks(s, i, t);
    hide AsksOk, QueueOk, TurnOk;
    forall j | 0 <= j < |s.turns|
      ensures TurnOk(s', s'.turns[j]) && Continues(s.turns[j], s'.turns[j])
    {
      TurnKept(s, s', s'.turns[j]);
    }
    hide Continues;
    TurnsBuilt(s, s');
  }

  lemma FlagsKeep(s: Thread, i: nat, a: Action)
    requires Inv(s) && i < |s.turns| && (a == Stop(i) || a == Exit(i))
    ensures Inv(Step(s, a))
  {
    var t := s.turns[i];
    assert TurnOk(s, t);
    OneTurnKeeps(s, i, if a.Stop? then t.(stopped := true) else t.(ended := true));
  }

  lemma ClaimedOk(s: Thread, t: Turn, n: nat, listed: seq<nat>)
    requires TurnOk(s, t) && !t.ended
    ensures TurnOk(s, t.(chain := Claimed(t.chain, n), listed := listed))
  {
    var t' := t.(chain := Claimed(t.chain, n), listed := listed);
    assert Linear(s, t'.chain) by {
      forall j, l | 0 <= j && l == j + 1 && l < |t.chain|
        ensures Joined(s, t'.chain[j].id, t'.chain[l].id)
      {
        assert Joined(s, t.chain[j].id, t.chain[l].id);
      }
    }
    forall j | 0 <= j < |t.chain|
      ensures EntryOk(s, t'.chain[j], t.number) && Entered(s, t'.chain[j].id)
    {
      assert EntryOk(s, t.chain[j], t.number) && Entered(s, t.chain[j].id);
    }
    assert Unsettled(s, t');
  }

  lemma DeliverKeeps(s: Thread, i: nat)
    requires Inv(s) && Enabled(s, Deliver(i))
    ensures Inv(Step(s, Deliver(i)))
  {
    hide TurnOk, AsksOk, QueueOk;
    var t := s.turns[i];
    assert TurnOk(s, t);
    ClaimedOk(s, t, t.listed[0], t.listed[1..]);
    OneTurnKeeps(s, i, t.(chain := Claimed(t.chain, t.listed[0]), listed := t.listed[1..]));
  }

  lemma TickKeeps(s: Thread, i: nat, listed: seq<nat>)
    requires Inv(s) && i < |s.turns|
    ensures Inv(SetTurn(s, i, s.turns[i].(listed := listed)))
  {
    hide AsksOk, QueueOk;
    var t := s.turns[i];
    assert TurnOk(s, t);
    assert TurnOk(s, t.(listed := listed)) by { assert Linear(s, t.chain); }
    OneTurnKeeps(s, i, t.(listed := listed));
  }

  lemma CancelAskKeeps(s: Thread, id: Id)
    requires Inv(s) && id in s.cancelled
    ensures Inv(CancelAskStep(s, id))
  {
    var at := FindTurn(s.turns, id);
    if at.Some? {
      var t := s.turns[at.value];
      assert TurnOk(s, t);
      if !t.ended && t.chain[|t.chain| - 1].id == id {
        var t' := t.(reported := true, stopped := true);
        assert Linear(s, t'.chain) && Unsettled(s, t');
        OneTurnKeeps(s, at.value, t');
      }
    } else if id in s.queue {
      UnqueueKeeps(s, id);
    }
  }

  lemma UnqueueKeeps(s: Thread, id: Id)
    requires Inv(s) && id in s.cancelled && id in s.queue
    ensures Inv(s.(queue := WithoutId(s.queue, id), place := s.place[id := Out]))
  {
    var s' := s.(queue := WithoutId(s.queue, id), place := s.place[id := Out]);
    assert AskOk(s, id) && Entered(s, id);
    assert QueueOk(s') by {
      hide TurnsOk, AsksOk, AskOk;
      WithoutDistinct(s.queue, id);
      assert forall x :: x in s'.queue ==> x in s.queue && Entered(s, x) && Entered(s', x);
    }
    hide QueueOk, TurnsOk, WithoutId;
    TurnsApart(s, s', id);
    OthersAsk(s, s', id);
  }

  lemma WithoutDistinct(q: seq<Id>, id: Id)
    requires forall i, j :: 0 <= i < j < |q| ==> q[i] != q[j]
    ensures forall i, j :: 0 <= i < j < |WithoutId(q, id)| ==> WithoutId(q, id)[i] != WithoutId(q, id)[j]
  {
    if q != [] {
      WithoutDistinct(q[1..], id);
      var rest := WithoutId(q[1..], id);
      forall i | 0 <= i < |rest|
        ensures rest[i] != q[0]
      {
        assert rest[i] in rest;
      }
    }
  }

  lemma SweepEndKeeps(s: Thread, i: nat)
    requires Inv(s) && Enabled(s, SweepEnd(i))
    ensures Inv(SweepEndStep(s, i))
  {
    var s', t := SweepEndStep(s, i), s.turns[i];
    assert AsksOk(s') by {
      forall x
        ensures AskOk(s', x)
      {
        SweepEndAsk(s, i, x);
      }
    }
    hide AsksOk, AskOk;
    assert QueueOk(s') by {
      hide TurnsOk;
      assert forall x :: x in s.queue && Entered(s, x) ==> Entered(s', x);
    }
    hide QueueOk;
    SweepEndTurns(s, i);
  }

  lemma SweepEndAsk(s: Thread, i: nat, x: Id)
    requires Inv(s) && i < |s.turns| && s.turns[i].swept
    ensures AskOk(SweepEndStep(s, i), x)
  {
    assert AskOk(s, x);
    hide TurnsOk, QueueOk, AsksOk;
    if x in s.place && s.place[x] == InTurn(s.turns[i].number) {
      LastOrJoined(s, i, x);
      LeftOk(s, SweepEndStep(s, i), x);
    } else {
      PassedElsewhere(s, i, x);
      SameOk(s, SweepEndStep(s, i), x);
    }
  }

  lemma PassedElsewhere(s: Thread, i: nat, x: Id)
    requires i < |s.turns| && Passed(s, x) ==> s.place[x] != InTurn(s.turns[i].number)
    ensures i < |s.turns| && Passed(s, x) ==> Passed(SweepEndStep(s, i), x)
  {
    if i < |s.turns| && Passed(s, x) && !s.place[x].Out? {
      var s' := SweepEndStep(s, i);
      var j :| 0 <= j < |s.turns| && Behind(s, x, s.turns[j]);
      assert s'.turns[if j < i then j else j - 1] == s.turns[j];
      assert Behind(s', x, s.turns[j]);
    }
  }

  lemma LeftOk(s: Thread, s': Thread, x: Id)
    requires AskOk(s, x) && x in s.place && s.place[x].InTurn? && (x in s.cancelled || x in s.superseded)
    requires s' == s.(turns := s'.turns, place := s'.place) && x in s'.place && s'.place[x].Out?
    ensures AskOk(s', x)
  {
  }

  lemma SweepEndTurns(s: Thread, i: nat)
    requires TurnsOk(s) && i < |s.turns|
    ensures TurnsOk(SweepEndStep(s, i))
  {
    hide TurnOk;
    var s', n := SweepEndStep(s, i), s.turns[i].number;
    forall j | 0 <= j < |s.turns| && j != i
      ensures TurnOk(s', s.turns[j])
    {
      assert s.turns[j].number != n && TurnOk(s, s.turns[j]);
      TurnKept(s, s', s.turns[j]);
    }
    assert forall j :: 0 <= j < |s'.turns| ==> s'.turns[j] == s.turns[if j < i then j else j + 1];
    forall x | x in s'.place && s'.place[x].InTurn?
      ensures Found(s', x)
    {
      assert Found(s, x);
      var j :| 0 <= j < |s.turns| && In(s, x, s.turns[j]);
      assert In(s', x, s'.turns[if j < i then j else j - 1]);
    }
  }

  /** In a silenced turn the last ask is canceled and each other one superseded. */
  lemma LastOrJoined(s: Thread, i: nat, x: Id)
    requires TurnsOk(s) && i < |s.turns| && s.turns[i].swept && x in s.place && s.place[x] == InTurn(s.turns[i].number)
    ensures x in s.cancelled || x in s.superseded
  {
    var t := s.turns[i];
    assert TurnOk(s, t);
    hide TurnOk, EntryOk;
    assert Found(s, x);
    var j :| 0 <= j < |s.turns| && In(s, x, s.turns[j]);
    assert j == i;
    hide TurnsOk;
    assert t.number !in s.settled;
    LastOrJoinedIn(s, t, x);
  }

  lemma LastOrJoinedIn(s: Thread, t: Turn, x: Id)
    requires TurnOk(s, t) && t.swept && In(s, x, t)
    ensures x in s.cancelled || x in s.superseded
  {
    var k :| 0 <= k < |t.chain| && t.chain[k].id == x;
    if k + 1 < |t.chain| {
      assert Joined(s, t.chain[k].id, t.chain[k + 1].id);
    }
  }

  // ---- Drops and restarts ----

  ghost predicate Distinct(ids: seq<Id>) {
    forall i, j :: 0 <= i < j < |ids| ==> ids[i] != ids[j]
  }

  lemma FailAllIs(s: Thread, ids: seq<Id>)
    requires Distinct(ids)
    ensures var r := FailAll(s, ids);
      && r == s.(failing := r.failing, answers := r.answers)
      && (forall x :: r.answers[Report(x)] == s.answers[Report(x)])
      && (forall x :: r.answers[Failure(x)] == s.answers[Failure(x)] + if x in ids && x in s.jobs then 1 else 0)
      && (forall x :: x in r.failing <==> x in s.failing || (x in ids && x in s.jobs))
    decreases |ids|
  {
    if ids != [] {
      FailAllIs(Fail(s, ids[0]), ids[1..]);
      assert ids == [ids[0]] + ids[1..];
      assert ids[0] !in ids[1..];
    }
  }

  lemma {:induction false} WaitingDistinct(chain: seq<Entry>)
    requires forall j, k :: 0 <= j < k < |chain| ==> chain[j].id != chain[k].id
    ensures Distinct(WaitingIds(chain))
  {
    if chain != [] {
      var last := |chain| - 1;
      var before := chain[..last];
      WaitingDistinct(before);
      var ids := WaitingIds(before);
      forall i | 0 <= i < |ids|
        ensures ids[i] != chain[last].id
      {
        assert ids[i] in ids;
        var k :| 0 <= k < |before| && before[k].id == ids[i];
        assert chain[k] == before[k];
      }
    }
  }

  /** The unread asks of a turn still to be swept wait in it and nowhere else. */
  lemma UnreadWait(s: Thread, t: Turn)
    requires TurnOk(s, t)
    requires t.number in s.settled ==> forall k :: 0 <= k < |t.chain| ==> !t.chain[k].file.Waiting?
    ensures Distinct(WaitingIds(t.chain))
    ensures forall x :: x in WaitingIds(t.chain) ==> x in s.place && s.place[x] == InTurn(t.number) && Entered(s, x)
  {
    WaitingDistinct(t.chain);
    forall x | x in WaitingIds(t.chain)
      ensures x in s.place && s.place[x] == InTurn(t.number) && Entered(s, x)
    {
      var k :| 0 <= k < |t.chain| && t.chain[k].id == x && t.chain[k].file.Waiting?;
      assert EntryOk(s, t.chain[k], t.number) && Entered(s, t.chain[k].id);
    }
  }

  /** The turn's inbox has been taken out, its asks told. */
  lemma EmptiedOk(s: Thread, s': Thread, t: Turn, late: set<nat>, left: seq<nat>)
    requires TurnOk(s, t) && Later(s, s') && (t.number in s'.settled <==> t.number in s.settled)
    requires t.number in s.settled ==> Stay(s, s', t.number) && forall k :: 0 <= k < |t.chain| ==> !t.chain[k].file.Waiting?
    requires forall k :: 0 <= k < |t.chain| ==> Seen(s, s', t.chain[k].id)
    requires t.number !in s.settled ==> forall k :: 0 <= k < |t.chain| ==>
      var id := t.chain[k].id;
      id in s'.place && if t.chain[k].file.Waiting? then Told(s', id) && s'.answers[Report(id)] == 0 else s.place[id] == s'.place[id]
    ensures TurnOk(s', t.(chain := Emptied(t.chain, late), listed := left))
  {
    var t' := t.(chain := Emptied(t.chain, late), listed := left);
    if t.number in s.settled {
      assert t'.chain == t.chain;
      TurnKept(s, s', t);
      assert Settled(s', t');
    } else {
      forall k | 0 <= k < |t.chain|
        ensures Entered(s', t'.chain[k].id) && EntryOk(s', t'.chain[k], t.number)
      {
        assert EntryOk(s, t.chain[k], t.number) && Entered(s, t.chain[k].id);
      }
      forall j, k | 0 <= j && k == j + 1 && k < |t.chain|
        ensures Joined(s', t'.chain[j].id, t'.chain[k].id)
      {
        assert Joined(s, t.chain[j].id, t.chain[k].id);
      }
      assert Unsettled(s', t');
    }
  }

  function Unread(s: Thread): seq<Id> {
    if s.turns == [] then [] else WaitingIds(s.turns[0].chain)
  }

  lemma DroppedOnce(s: Thread)
    requires TurnsOk(s) && QueueOk(s) && !FirstLittered(s)
    ensures Distinct(s.queue + Unread(s))
    ensures forall x :: x in Unread(s) ==> x in s.place && s.place[x] == InTurn(s.turns[0].number) && Entered(s, x)
  {
    if s.turns != [] {
      assert TurnOk(s, s.turns[0]);
      UnreadWait(s, s.turns[0]);
    }
    forall i, j | 0 <= i < j < |s.queue + Unread(s)|
      ensures (s.queue + Unread(s))[i] != (s.queue + Unread(s))[j]
    {
      if i < |s.queue| <= j {
        assert Unread(s)[j - |s.queue|] in Unread(s) && s.queue[i] in s.queue;
      }
    }
  }

  /** What a drop does, ask by ask. */
  ghost predicate Drops(s: Thread, s': Thread) {
    && s' == s.(failing := s'.failing, answers := s'.answers, queue := [], turns := s'.turns, place := s'.place)
    && (forall x :: DropsAsk(s, s', x, x in s.queue || x in Unread(s)))
  }

  ghost predicate DropsAsk(s: Thread, s': Thread, x: Id, gone: bool) {
    && (x in s'.place <==> x in s.place)
    && (x in s.place ==> s'.place[x] == if gone then Out else s.place[x])
    && (gone ==> x in s.place && !s.place[x].Out? && Entered(s, x))
    && s'.answers[Report(x)] == s.answers[Report(x)]
    && s'.answers[Failure(x)] == s.answers[Failure(x)] + (if gone && x in s.jobs then 1 else 0)
    && (x in s'.failing <==> x in s.failing || (gone && x in s.jobs))
  }

  lemma DropAt(s: Thread, s1: Thread, ids: seq<Id>, s': Thread, x: Id)
    requires QueueOk(s) && ids == s.queue + Unread(s) && s1.jobs == s.jobs && s'.place == Moved(s.place, ids, Out)
    requires x in Unread(s) ==> x in s.place && s.place[x].InTurn? && Entered(s, x)
    requires s1.answers[Report(x)] == s.answers[Report(x)]
    requires s1.answers[Failure(x)] == s.answers[Failure(x)] + if x in ids && x in s.jobs then 1 else 0
    requires x in s1.failing <==> x in s.failing || (x in ids && x in s.jobs)
    requires s'.answers == s1.answers && s'.failing == s1.failing
    requires forall y :: y in ids ==> y in s.place
    ensures DropsAsk(s, s', x, x in s.queue || x in Unread(s))
  {
    hide Unread;
    assert x in ids <==> x in s.queue || x in Unread(s);
  }

  lemma DropDrops(s: Thread, late: set<nat>, left: seq<nat>)
    requires TurnsOk(s) && QueueOk(s) && !FirstLittered(s)
    ensures Drops(s, DropStep(s, late, left))
  {
    DroppedOnce(s);
    hide TurnsOk;
    var s', ids := DropStep(s, late, left), s.queue + Unread(s);
    FailAllIs(s, ids);
    var s1 := FailAll(s, ids);
    assert s'.answers == s1.answers && s'.failing == s1.failing && s'.place == Moved(s.place, ids, Out);
    assert s' == s.(failing := s'.failing, answers := s'.answers, queue := [], turns := s'.turns, place := s'.place);
    hide DropStep, FailAll, Unread, DropsAsk, Moved;
    forall x
      ensures DropsAsk(s, s', x, x in s.queue || x in Unread(s))
    {
      DropAt(s, s1, ids, s', x);
    }
  }

  lemma DropKeepsAsk(s: Thread, s': Thread, late: set<nat>, left: seq<nat>, x: Id)
    requires Drops(s, s') && AskOk(s, x)
    requires s'.turns == if s.turns == [] then [] else s.turns[0 := s.turns[0].(chain := Emptied(s.turns[0].chain, late), listed := left)]
    ensures AskOk(s', x) && Seen(s, s', x) && (x in Unread(s) ==> Told(s', x) && s'.answers[Report(x)] == 0)
  {
    assert Passed(s, x) ==> Passed(s', x) by {
      assert DropsAsk(s, s', x, x in s.queue || x in Unread(s));
      if Passed(s, x) { PassedKept(s, s', x); }
    }
    hide Passed;
    assert DropsAsk(s, s', x, x in s.queue || x in Unread(s));
  }

  lemma DropKeepsTurn(s: Thread, s': Thread, late: set<nat>, left: seq<nat>, j: nat)
    requires TurnsOk(s) && QueueOk(s) && !FirstLittered(s) && Drops(s, s') && j < |s.turns|
    requires forall x :: Seen(s, s', x) && (x in Unread(s) ==> Told(s', x) && s'.answers[Report(x)] == 0)
    requires s'.turns == s.turns[0 := s.turns[0].(chain := Emptied(s.turns[0].chain, late), listed := left)]
    ensures TurnOk(s', s'.turns[j]) && s'.turns[j].number == s.turns[j].number
  {
    hide Seen;
    DroppedOnce(s);
    assert forall x :: DropsAsk(s, s', x, x in s.queue || x in Unread(s));
    assert forall x :: x in s.queue ==> s.place[x].Queued?;
    assert TurnOk(s, s.turns[j]);
    hide TurnOk, Entered;
    if j > 0 {
      assert s.turns[j].number != s.turns[0].number;
      TurnKept(s, s', s.turns[j]);
    } else {
      DropFirst(s, s', late, left);
    }
  }

  lemma DropFirst(s: Thread, s': Thread, late: set<nat>, left: seq<nat>)
    requires TurnsOk(s) && !FirstLittered(s) && s.turns != [] && Later(s, s') && s'.settled == s.settled
    requires forall x :: Seen(s, s', x)
    requires forall x :: x in s.queue ==> x in s.place && s.place[x].Queued?
    requires forall x :: (x in s'.place <==> x in s.place) && (x in s.place ==> s'.place[x] == if x in s.queue || x in Unread(s) then Out else s.place[x])
    requires forall x :: x in Unread(s) ==> Told(s', x) && s'.answers[Report(x)] == 0
    ensures TurnOk(s', s.turns[0].(chain := Emptied(s.turns[0].chain, late), listed := left))
  {
    var t := s.turns[0];
    assert TurnOk(s, t);
    hide Seen;
    if t.number !in s.settled {
      forall k | 0 <= k < |t.chain|
        ensures var id := t.chain[k].id;
          id in s'.place && if t.chain[k].file.Waiting? then Told(s', id) && s'.answers[Report(id)] == 0 else s.place[id] == s'.place[id]
      {
        assert EntryOk(s, t.chain[k], t.number);
      }
    } else {
      forall x | x in s.place && s.place[x].InTurn?
        ensures s.place[x] != InTurn(t.number)
      {
        assert Found(s, x);
      }
    }
    EmptiedOk(s, s', t, late, left);
  }

  lemma DropFound(s: Thread, s': Thread, late: set<nat>, left: seq<nat>, x: Id)
    requires Found(s, x) && s'.settled == s.settled && x in s'.place && s'.place[x] == s.place[x] && x !in Unread(s)
    requires |s'.turns| == |s.turns| && forall i :: 0 <= i < |s.turns| ==>
      s'.turns[i] == if i == 0 then s.turns[0].(chain := Emptied(s.turns[0].chain, late), listed := left) else s.turns[i]
    ensures Found(s', x)
  {
    var i :| 0 <= i < |s.turns| && In(s, x, s.turns[i]);
    var k :| 0 <= k < |s.turns[i].chain| && s.turns[i].chain[k].id == x && !s.turns[i].chain[k].file.Taken?;
    assert s'.turns[i].chain[k].id == x && !s'.turns[i].chain[k].file.Taken?;
    assert In(s', x, s'.turns[i]);
  }

  lemma DropKeepsAsks(s: Thread, s': Thread, late: set<nat>, left: seq<nat>)
    requires AsksOk(s) && QueueOk(s) && Drops(s, s')
    requires s'.turns == if s.turns == [] then [] else s.turns[0 := s.turns[0].(chain := Emptied(s.turns[0].chain, late), listed := left)]
    ensures AsksOk(s') && QueueOk(s')
  {
    forall x
      ensures AskOk(s', x) && (x in s'.place ==> x in s.place && (s'.place[x].Queued? ==> s.place[x].Queued? && x !in s.queue))
    {
      assert AskOk(s, x);
      DropKeepsAsk(s, s', late, left, x);
      assert DropsAsk(s, s', x, x in s.queue || x in Unread(s));
    }
    hide AskOk;
  }

  lemma DropKeepsTurns(s: Thread, s': Thread, late: set<nat>, left: seq<nat>)
    requires TurnsOk(s) && QueueOk(s) && !FirstLittered(s) && Drops(s, s')
    requires s'.turns == if s.turns == [] then [] else s.turns[0 := s.turns[0].(chain := Emptied(s.turns[0].chain, late), listed := left)]
    requires forall x :: Seen(s, s', x) && (x in Unread(s) ==> Told(s', x) && s'.answers[Report(x)] == 0)
    ensures TurnsOk(s')
  {
    hide TurnOk, Entered, Seen, QueueOk;
    forall x | x in s'.place && s'.place[x].InTurn?
      ensures x in s.place && s'.place[x] == s.place[x] && x !in Unread(s)
    {
      assert DropsAsk(s, s', x, x in s.queue || x in Unread(s));
    }
    forall j | 0 <= j < |s.turns|
      ensures TurnOk(s', s'.turns[j]) && s'.turns[j].number == s.turns[j].number
    {
      DropKeepsTurn(s, s', late, left, j);
    }
    hide Drops;
    forall x | x in s'.place && s'.place[x].InTurn?
      ensures Found(s', x)
    {
      assert Found(s, x);
      DropFound(s, s', late, left, x);
    }
  }

  lemma CleanDropKeeps(s: Thread, late: set<nat>, left: seq<nat>)
    requires Inv(s) && !FirstLittered(s)
    ensures Inv(DropStep(s, late, left))
  {
    var s' := DropStep(s, late, left);
    DropDrops(s, late, left);
    DropKeepsAsks(s, s', late, left);
    hide TurnsOk, QueueOk, Drops;
    forall x
      ensures Seen(s, s', x) && (x in Unread(s) ==> Told(s', x) && s'.answers[Report(x)] == 0)
    {
      assert AskOk(s, x);
      hide AskOk, Seen;
      DropKeepsAsk(s, s', late, left, x);
    }
    hide AskOk, AsksOk, Seen;
    DropKeepsTurns(s, s', late, left);
  }

  // ---- A drop after a told end ----

  /** The first turn with its inbox taken out. */
  function Tidied(s: Thread): Thread {
    if s.turns == [] then s else SetTurn(s, 0, s.turns[0].(chain := Emptied(s.turns[0].chain, {})))
  }

  /** What is found renamed under a number depends on the renamed files alone. */
  lemma LookDelivered(chain: seq<Entry>, after: seq<Entry>)
    requires |after| == |chain|
    requires forall k :: 0 <= k < |chain| ==> after[k].name == chain[k].name && (after[k].file.Delivered? <==> chain[k].file.Delivered?)
    ensures forall k :: 0 <= k < |chain| ==> (Look(after)[k].file.Delivered? <==> Look(chain)[k].file.Delivered?)
  {
    forall k | 0 <= k < |chain|
      ensures Look(after)[k].file.Delivered? <==> Look(chain)[k].file.Delivered?
    {
      var name := chain[k].name;
      if e :| e in chain && e.name == name && e.file.Delivered? {
        var j :| 0 <= j < |chain| && chain[j] == e;
        assert after[j] in after;
      }
      if e :| e in after && e.name == name && e.file.Delivered? {
        var j :| 0 <= j < |after| && after[j] == e;
        assert chain[j] in chain;
      }
    }
  }

  lemma TidiedTurn(s: Thread, t: Turn)
    requires TurnOk(s, t) && t.number in s.settled
    ensures TurnOk(s, t.(chain := Emptied(t.chain, {})))
  {
    var t' := t.(chain := Emptied(t.chain, {}));
    LookDelivered(t.chain, t'.chain);
    hide Entered, Closed, Told, Look;
    assert Linear(s, t'.chain) by {
      forall j, k | 0 <= j && k == j + 1 && k < |t.chain|
        ensures Joined(s, t'.chain[j].id, t'.chain[k].id)
      {
        assert Joined(s, t.chain[j].id, t.chain[k].id);
      }
    }
    assert Settled(s, t');
  }

  lemma TidiedKeeps(s: Thread)
    requires Inv(s) && FirstLittered(s)
    ensures Inv(Tidied(s)) && !FirstLittered(Tidied(s))
  {
    hide TurnOk, AskOk;
    var s', t := Tidied(s), s.turns[0];
    SameAsks(s, 0, s'.turns[0]);
    hide AsksOk, QueueOk;
    TidiedTurn(s, t);
    forall j | 0 <= j < |s.turns|
      ensures TurnOk(s', s'.turns[j])
    {
      TurnKept(s, s', s'.turns[j]);
    }
    hide Emptied;
    forall x | x in s'.place && s'.place[x].InTurn?
      ensures Found(s', x)
    {
      assert Found(s, x);
      var i :| 0 <= i < |s.turns| && In(s, x, s.turns[i]);
      assert i != 0 && In(s', x, s'.turns[i]);
    }
    assert Numbered(s') by {
      assert forall j :: 0 <= j < |s.turns| ==> s'.turns[j].number == s.turns[j].number;
    }
  }

  lemma {:induction false} FailAllJoin(s: Thread, a: seq<Id>, b: seq<Id>)
    ensures FailAll(s, a + b) == FailAll(FailAll(s, a), b)
    decreases |a|
  {
    if a == [] {
      assert a + b == b;
    } else {
      assert (a + b)[1..] == a[1..] + b;
      FailAllJoin(Fail(s, a[0]), a[1..], b);
    }
  }

  lemma {:induction false} FailAllGone(s: Thread, ids: seq<Id>)
    requires forall x :: x in ids ==> x !in s.jobs
    ensures FailAll(s, ids) == s
    decreases |ids|
  {
    if ids != [] {
      assert ids[0] in ids;
      FailAllGone(s, ids[1..]);
    }
  }

  /** What was lost is out already. */
  lemma LostAreOut(s: Thread)
    requires TurnsOk(s) && FirstLittered(s)
    ensures forall x :: x in Unread(s) ==> x in s.place && s.place[x].Out? && (x in s.jobs ==> s.answers[Failure(x)] > 0)
    ensures Distinct(Unread(s))
  {
    var t := s.turns[0];
    assert TurnOk(s, t);
    WaitingDistinct(t.chain);
    forall x | x in Unread(s)
      ensures Told(s, x)
    {
      var k :| 0 <= k < |t.chain| && t.chain[k].id == x && t.chain[k].file.Waiting?;
    }
  }

  lemma {:induction false} FailAllTurns(s: Thread, ids: seq<Id>, turns: seq<Turn>)
    ensures FailAll(s.(turns := turns), ids) == FailAll(s, ids).(turns := turns)
    decreases |ids|
  {
    if ids != [] {
      FailAllTurns(Fail(s, ids[0]), ids[1..], turns);
    }
  }

  lemma ToldAlready(s: Thread)
    requires TurnsOk(s) && QueueOk(s) && FirstLittered(s) && !Relost(s)
    ensures FailAll(s, s.queue + Unread(s)) == FailAll(s, s.queue)
  {
    var unread := Unread(s);
    FailAllIs(s, s.queue);
    hide TurnsOk, QueueOk;
    FailAllJoin(s, s.queue, unread);
    forall x | x in unread
      ensures x !in s.jobs
    {
      var k :| 0 <= k < |s.turns[0].chain| && s.turns[0].chain[k].id == x && s.turns[0].chain[k].file.Waiting?;
    }
    FailAllGone(FailAll(s, s.queue), unread);
  }

  lemma TidyDrop(s: Thread, late: set<nat>, left: seq<nat>)
    requires TurnsOk(s) && QueueOk(s) && FirstLittered(s) && !Relost(s) && late == {}
    ensures DropStep(s, late, left) == DropStep(Tidied(s), late, left)
  {
    var s1, unread := Tidied(s), Unread(s);
    LostAreOut(s);
    ToldAlready(s);
    assert forall x :: x in s.queue ==> x in s.place;
    hide TurnsOk, QueueOk, Relost, FirstLittered;
    TidiedTwice(s, left);
    FailAllTurns(s, s.queue, s1.turns);
    hide FailAll, WaitingIds, Emptied, Tidied, Unread;
    MovedOut(s.place, s.queue, unread);
    DropIs(s, late, left);
    DropIs(s1, late, left);
    hide DropStep;
  }

  lemma DropIs(s: Thread, late: set<nat>, left: seq<nat>)
    requires s.turns != []
    ensures DropStep(s, late, left) == FailAll(s, s.queue + Unread(s)).(queue := [],
      turns := s.turns[0 := s.turns[0].(chain := Emptied(s.turns[0].chain, late), listed := left)],
      place := Moved(s.place, s.queue + Unread(s), Out))
  {
  }

  lemma MovedOut(place: map<Id, Place>, queue: seq<Id>, unread: seq<Id>)
    requires forall x :: x in unread ==> x in place && place[x].Out?
    requires forall x :: x in queue ==> x in place
    ensures Moved(place, queue + unread, Out) == Moved(place, queue, Out)
  {
  }

  lemma TidiedTwice(s: Thread, left: seq<nat>)
    requires s.turns != []
    ensures var s1 := Tidied(s);
      && s1 == s.(turns := s1.turns) && s1.turns != [] && Unread(s1) == [] && s.queue + [] == s.queue
      && s1.turns[0 := s1.turns[0].(chain := Emptied(s1.turns[0].chain, {}), listed := left)]
      == s.turns[0 := s.turns[0].(chain := Emptied(s.turns[0].chain, {}), listed := left)]
  {
    NothingWaits(Tidied(s).turns[0].chain);
    hide WaitingIds;
  }

  lemma DropKeeps(s: Thread, late: set<nat>, left: seq<nat>)
    requires Inv(s) && !Relost(s) && Drains(s, late, left)
    ensures Inv(DropStep(s, late, left))
  {
    assert FirstLittered(s) ==> late == {} by { if FirstLittered(s) { assert TurnOk(s, s.turns[0]); } }
    hide TurnsOk, QueueOk, AsksOk, DropStep, FirstLittered, Relost;
    if FirstLittered(s) {
      TidiedKeeps(s);
      TidyDrop(s, late, left);
      CleanDropKeeps(Tidied(s), late, left);
    } else {
      CleanDropKeeps(s, late, left);
    }
  }

  lemma DroppedApart(s: Thread)
    requires TurnsOk(s) && QueueOk(s) && FirstLittered(s)
    ensures Distinct(s.queue + Unread(s))
  {
    var unread, ids := Unread(s), s.queue + Unread(s);
    LostAreOut(s);
    hide TurnsOk, FirstLittered, Unread;
    forall i, j | 0 <= i < j < |ids|
      ensures ids[i] != ids[j]
    {
      if i < |s.queue| <= j { assert s.queue[i] in s.queue && unread[j - |s.queue|] in unread; }
    }
  }

  lemma RelostIsBad(s: Thread, late: set<nat>, left: seq<nat>)
    requires Inv(s) && Relost(s)
    ensures !Good(DropStep(s, late, left))
  {
    LostAreOut(s);
    DroppedApart(s);
    hide Inv, TurnsOk, QueueOk, AsksOk;
    var k :| 0 <= k < |s.turns[0].chain| && s.turns[0].chain[k].file.Waiting? && s.turns[0].chain[k].id in s.jobs;
    var x, ids := s.turns[0].chain[k].id, s.queue + Unread(s);
    assert x in Unread(s) && x in ids;
    FailAllIs(s, ids);
    hide FailAll, WaitingIds, Relost, FirstLittered, Emptied, Moved;
    assert DropStep(s, late, left).answers == FailAll(s, ids).answers;
    assert Count(DropStep(s, late, left), x) > 1;
  }

  lemma RestartKeeps(s: Thread, died: set<nat>)
    requires Inv(s) && Clean(s, Restart(died))
    ensures Inv(Restarted(s, died))
  {
    var s' := Restarted(s, died);
    forall x
      ensures AskOk(s', x) && Seen(s, s', x)
    {
      RestartKeepsAsk(s, died, x);
    }
    assert QueueOk(s') by { hide TurnsOk, AsksOk; }
    hide AskOk, QueueOk, Seen;
    forall j | 0 <= j < |s.turns|
      ensures TurnOk(s', s'.turns[j]) && Continues(s.turns[j], s'.turns[j])
    {
      RestartKeepsTurn(s, s', j);
    }
    hide TurnOk, Continues;
    TurnsBuilt(s, s');
  }

  lemma RestartKeepsAsk(s: Thread, died: set<nat>, x: Id)
    requires Inv(s) && Clean(s, Restart(died))
    ensures AskOk(Restarted(s, died), x) && Seen(s, Restarted(s, died), x)
  {
    var s' := Restarted(s, died);
    assert AskOk(s, x);
    hide TurnsOk, QueueOk, AsksOk;
    if Passed(s, x) { PassedKept(s, s', x); }
    if x in s.marks.Values {
      var m :| m in s.marks && s.marks[m] == x;
      assert !Unsaid(s, s.marks[m]);
    }
    hide Passed;
  }

  lemma RestartKeepsTurn(s: Thread, s': Thread, j: nat)
    requires TurnsOk(s) && !Littered(s) && j < |s.turns| && |s'.turns| == |s.turns| && Later(s, s') && s'.settled == s.settled
    requires s'.turns[j] == s.turns[j].(ended := s'.turns[j].ended, stopped := false, reported := false, swept := false)
    requires s.turns[j].ended ==> s'.turns[j].ended
    requires forall x :: Seen(s, s', x)
    requires forall x :: x in s.place && s.place[x].InTurn? ==> x in s'.place && s'.place[x] == s.place[x]
    ensures TurnOk(s', s'.turns[j]) && Continues(s.turns[j], s'.turns[j])
  {
    hide Seen;
    var t, t' := s.turns[j], s'.turns[j];
    assert TurnOk(s, t);
    TurnKept(s, s', t);
    if t.number in s.settled { assert Settled(s', t'); } else { assert Unsettled(s', t'); }
  }

  // ---- Sweeps ----

  /** `onTurnDone`, ask by ask: `upTo` if the ask is the target or before it in the chain. */
  ghost predicate DoneAsk(s: Thread, s': Thread, x: Id, upTo: bool, reported: bool, lost: bool) {
    && (x in s'.jobs ==> x in s.jobs)
    && (upTo && x in s'.jobs ==> s'.jobs[x].stage.Reporting?)
    && (!upTo && x in s.jobs ==> x in s'.jobs && s'.jobs[x] == s.jobs[x])
    && (x in s'.jobs && !reported ==> s'.jobs[x] == s.jobs[x])
    && (reported ==> x in s'.jobs)
    && s'.answers[Report(x)] == s.answers[Report(x)] + (if reported then 1 else 0)
    && s'.answers[Failure(x)] == s.answers[Failure(x)] + (if lost && x in s.jobs then 1 else 0)
    && (x in s'.failing <==> x in s.failing || (lost && x in s.jobs))
  }

  lemma TurnDoneIs(s: Thread, chain: seq<Entry>, k: nat, r: Thread, x: Id)
    requires chain != [] && chain[0].file.Delivered? && k == LastDelivered(chain) && r == TurnDone(s, chain)
    requires forall i, j :: 0 <= i < j < |chain| ==> chain[i].id != chain[j].id
    ensures r == s.(jobs := r.jobs, failing := r.failing, answers := r.answers)
    ensures DoneAsk(s, r, x, x in Ids(chain[..k + 1]), x == chain[k].id && Reports(s, chain, k), x in WaitingIds(chain[k + 1..]))
  {
    var t := TurnTarget(chain);
    var gone := set id | id in t.superseded && id in s.jobs && !s.jobs[id].stage.Reporting?;
    TargetIs(chain, k, t);
    hide LastDelivered, WaitingIds, Ids, TurnTarget;
    UpTo(chain, k, x);
    LostLater(chain, k, x);
    var s1 := FailAll(s.(jobs := s.jobs - gone), t.lost);
    assert r == Reply(s1, t);
    hide TurnDone;
    assert t.id !in gone && (x in gone <==> x in t.superseded && x in s.jobs && !s.jobs[x].stage.Reporting?);
    EndTold(s, s1, r, t, x, gone);
  }

  lemma TargetIs(chain: seq<Entry>, k: nat, t: Target)
    requires chain != [] && chain[0].file.Delivered? && k == LastDelivered(chain) && t == TurnTarget(chain)
    ensures k < |chain| && t.id == chain[k].id && t.superseded == Ids(chain[..k]) && t.lost == WaitingIds(chain[k + 1..]) && (t.report <==> k == |chain| - 1)
  {
    hide LastDelivered, WaitingIds, Ids;
  }

  lemma EndTold(s: Thread, s1: Thread, r: Thread, t: Target, x: Id, gone: set<Id>)
    requires s1 == FailAll(s.(jobs := s.jobs - gone), t.lost) && r == Reply(s1, t) && Distinct(t.lost)
    requires x in gone <==> x in t.superseded && x in s.jobs && !s.jobs[x].stage.Reporting?
    requires t.id !in gone && (x in t.lost ==> x !in t.superseded && x != t.id)
    ensures r == s.(jobs := r.jobs, failing := r.failing, answers := r.answers)
    ensures DoneAsk(s, r, x, x in t.superseded || x == t.id,
                    x == t.id && t.report && t.id in s.jobs && !s.jobs[t.id].stage.Reporting? && !s.jobs[t.id].stage.Superseded?, x in t.lost)
  {
    FailAllIs(s.(jobs := s.jobs - gone), t.lost);
    hide FailAll;
    ReplyIs(s1, t, x);
    hide Reply;
    Composed(s, s1, r, t, x, gone);
  }

  lemma Composed(s: Thread, s1: Thread, r: Thread, t: Target, x: Id, gone: set<Id>)
    requires s1 == s.(jobs := s.jobs - gone, failing := s1.failing, answers := s1.answers)
    requires x in gone <==> x in t.superseded && x in s.jobs && !s.jobs[x].stage.Reporting?
    requires t.id !in gone && (x in t.lost ==> x !in t.superseded && x != t.id)
    requires s1.answers[Report(x)] == s.answers[Report(x)]
    requires s1.answers[Failure(x)] == s.answers[Failure(x)] + if x in t.lost && x in s1.jobs then 1 else 0
    requires x in s1.failing <==> x in s.failing || (x in t.lost && x in s1.jobs)
    requires r == s1.(jobs := r.jobs, answers := r.answers)
    requires DoneAsk(s1, r, x, x == t.id, x == t.id && t.report && t.id in s1.jobs && !s1.jobs[t.id].stage.Reporting? && !s1.jobs[t.id].stage.Superseded?, false)
    ensures r == s.(jobs := r.jobs, failing := r.failing, answers := r.answers)
    ensures DoneAsk(s, r, x, x in t.superseded || x == t.id,
                    x == t.id && t.report && t.id in s.jobs && !s.jobs[t.id].stage.Reporting? && !s.jobs[t.id].stage.Superseded?, x in t.lost)
  {
  }

  lemma ReplyIs(s: Thread, t: Target, x: Id)
    ensures var r, reported := Reply(s, t), t.report && t.id in s.jobs && !s.jobs[t.id].stage.Reporting? && !s.jobs[t.id].stage.Superseded?;
      r == s.(jobs := r.jobs, answers := r.answers) && DoneAsk(s, r, x, x == t.id, x == t.id && reported, false)
  {
  }

  lemma LostLater(chain: seq<Entry>, k: nat, x: Id)
    requires k < |chain| && forall i, j :: 0 <= i < j < |chain| ==> chain[i].id != chain[j].id
    ensures Distinct(WaitingIds(chain[k + 1..]))
    ensures x in WaitingIds(chain[k + 1..]) ==> x !in Ids(chain[..k]) && x != chain[k].id
  {
    var later := chain[k + 1..];
    WaitingDistinct(later);
    if x in WaitingIds(later) {
      var j :| 0 <= j < |later| && later[j].id == x;
      assert chain[k + 1 + j].id == x;
    }
  }

  lemma UpTo(chain: seq<Entry>, k: nat, x: Id)
    requires k < |chain| && forall i, j :: 0 <= i < j < |chain| ==> chain[i].id != chain[j].id
    ensures x in Ids(chain[..k + 1]) <==> x in Ids(chain[..k]) || x == chain[k].id
    ensures chain[k].id !in Ids(chain[..k])
  {
    var to := Ids(chain[..k + 1]);
    assert to[..k] == Ids(chain[..k]) && to[k] == chain[k].id;
    assert to == to[..k] + [to[k]];
  }

  /** The first sweep of turn i: what was unread goes ahead of the queue, then the turn's end is told. */
  ghost predicate Sweeps(s: Thread, s': Thread, i: nat, unread: seq<Id>, chain: seq<Entry>, k: nat)
    requires i < |s.turns| && k < |chain|
  {
    var t := s.turns[i];
    && s' == s.(jobs := s'.jobs, failing := s'.failing, answers := s'.answers, place := s'.place, queue := unread + s.queue,
                turns := s.turns[i := t.(chain := chain, swept := true, reported := true)], settled := s.settled + {t.number})
    && (forall x :: SweepsAsk(s, s', t.number, unread, chain, k, x))
  }

  ghost predicate SweepsAsk(s: Thread, s': Thread, number: nat, unread: seq<Id>, chain: seq<Entry>, k: nat, x: Id)
    requires k < |chain|
  {
    && (x in s'.place <==> x in s.place)
    && (x in s.place ==> s'.place[x] == if x in unread then Queued else if s.place[x] == InTurn(number) then Out else s.place[x])
    && DoneAsk(s, s', x, x in Ids(chain[..k + 1]), x == chain[k].id && Reports(s, chain, k), x in WaitingIds(Look(chain)[k + 1..]))
  }

  /** The turn about to be swept for the first time. */
  ghost predicate Ready(s: Thread, i: nat, unread: seq<Id>, chain: seq<Entry>, k: nat) {
    && i < |s.turns| && TurnOk(s, s.turns[i]) && s.turns[i].number !in s.settled && !s.turns[i].reported && s.turns[i].ended
    && unread == (if s.turns[i].stopped then [] else WaitingIds(s.turns[i].chain))
    && chain == AfterDrain(s.turns[i]) && k == Answers(s.turns[i])
  }

  /** The sweep would tell no ask that is told already, and report none that a follow-up has joined. */
  ghost predicate Quiet(s: Thread, chain: seq<Entry>, k: nat)
    requires k < |chain|
  {
    && (Reports(s, chain, k) ==> chain[k].id !in s.marks.Values && chain[k].id !in s.failing)
    && (forall j :: k < j < |chain| && Look(chain)[j].file.Waiting? && chain[j].id in s.jobs ==> chain[j].id !in s.failing)
  }

  lemma DrainedIs(s: Thread, i: nat, unread: seq<Id>, chain: seq<Entry>, k: nat, d: Thread)
    requires Ready(s, i, unread, chain, k) && d == Drained(s, i)
    ensures d == s.(place := d.place, queue := unread + s.queue, turns := s.turns[i := s.turns[i].(chain := chain)])
    ensures forall x :: (x in d.place <==> x in s.place || x in unread) && (x in d.place ==> d.place[x] == if x in unread then Queued else s.place[x])
  {
    hide TurnOk, LastDelivered, WaitingIds;
    if s.turns[i].stopped {
      assert s.turns[i := s.turns[i]] == s.turns && [] + s.queue == s.queue;
    }
  }

  lemma OverIs(s: Thread, i: nat, unread: seq<Id>, chain: seq<Entry>, k: nat, e: Thread)
    requires Ready(s, i, unread, chain, k) && e == TurnOver(s, i)
    ensures e == s.(place := e.place, queue := unread + s.queue, settled := s.settled + {s.turns[i].number},
                    turns := s.turns[i := s.turns[i].(chain := chain, swept := true, reported := true)])
    ensures forall x :: OverAsk(s, e, s.turns[i].number, unread, x)
  {
    assert i < |s.turns|;
    var d := Drained(s, i);
    assert e == SetTurn(d, i, d.turns[i].(swept := true, reported := true)).(
      place := Leave(d.place, d.turns[i].number), settled := d.settled + {d.turns[i].number});
    hide Ready, Drained, TurnOver, OverAsk, Distinct, Entered;
    DrainedIs(s, i, unread, chain, k, d);
    UnreadOf(s, i, unread, chain, k);
    OverOf(s, d, i, unread, chain, e);
  }

  lemma OverOf(s: Thread, d: Thread, i: nat, unread: seq<Id>, chain: seq<Entry>, e: Thread)
    requires i < |s.turns| && |d.turns| == |s.turns|
    requires d == s.(place := d.place, queue := unread + s.queue, turns := s.turns[i := s.turns[i].(chain := chain)])
    requires forall x :: (x in d.place <==> x in s.place || x in unread) && (x in d.place ==> d.place[x] == if x in unread then Queued else s.place[x])
    requires forall x :: x in unread ==> x in s.place
    requires e == SetTurn(d, i, d.turns[i].(swept := true, reported := true)).(
      place := Leave(d.place, d.turns[i].number), settled := d.settled + {d.turns[i].number})
    ensures e == s.(place := e.place, queue := unread + s.queue, settled := s.settled + {s.turns[i].number},
                    turns := s.turns[i := s.turns[i].(chain := chain, swept := true, reported := true)])
    ensures forall x :: OverAsk(s, e, s.turns[i].number, unread, x)
  {
    assert e.turns == s.turns[i := s.turns[i].(chain := chain, swept := true, reported := true)];
  }

  lemma UnreadOf(s: Thread, i: nat, unread: seq<Id>, chain: seq<Entry>, k: nat)
    requires Ready(s, i, unread, chain, k)
    ensures Distinct(unread) && forall x :: x in unread ==> x in s.place && s.place[x] == InTurn(s.turns[i].number) && Entered(s, x)
  {
    hide LastDelivered, Look, Entered;
    UnreadWait(s, s.turns[i]);
    hide TurnOk, WaitingIds;
  }

  ghost predicate OverAsk(s: Thread, e: Thread, number: nat, unread: seq<Id>, x: Id) {
    && (x in e.place <==> x in s.place)
    && (x in s.place ==> e.place[x] == if x in unread then Queued else if s.place[x] == InTurn(number) then Out else s.place[x])
  }

  lemma DoneSame(s: Thread, e: Thread, s': Thread, x: Id, upTo: bool, report: bool, lost: bool)
    requires DoneAsk(e, s', x, upTo, report, lost) && e.jobs == s.jobs && e.answers == s.answers && e.failing == s.failing
    ensures DoneAsk(s, s', x, upTo, report, lost)
  {
  }

  /** Seen by number the asks are the same ones. */
  lemma LookIds(s: Thread, chain: seq<Entry>, k: nat)
    requires k < |chain|
    ensures Ids(Look(chain)[..k + 1]) == Ids(chain[..k + 1]) && Look(chain)[k].id == chain[k].id
    ensures Reports(s, Look(chain), k) == Reports(s, chain, k)
  {
  }

  lemma SweepAt(s: Thread, e: Thread, s': Thread, number: nat, unread: seq<Id>, chain: seq<Entry>, k: nat, x: Id)
    requires chain != [] && Look(chain)[0].file.Delivered? && k == LastDelivered(Look(chain)) && s' == TurnDone(e, Look(chain))
    requires forall i, j :: 0 <= i < j < |chain| ==> chain[i].id != chain[j].id
    requires OverAsk(s, e, number, unread, x) && e == s.(place := e.place, queue := e.queue, settled := e.settled, turns := e.turns)
    ensures SweepsAsk(s, s', number, unread, chain, k, x)
    ensures s' == e.(jobs := s'.jobs, failing := s'.failing, answers := s'.answers)
  {
    hide TurnDone, LastDelivered, WaitingIds, Ids, DoneAsk, Look, FileNamed, Reports, OverAsk, SweepsAsk;
    DoneSeen(e, s', chain, k, x);
    SameReports(s, e, chain, k);
    DoneSame(s, e, s', x, x in Ids(chain[..k + 1]), x == chain[k].id && Reports(s, chain, k), x in WaitingIds(Look(chain)[k + 1..]));
    DoneOver(s, e, s', number, unread, chain, k, x);
  }

  lemma DoneOver(s: Thread, e: Thread, s': Thread, number: nat, unread: seq<Id>, chain: seq<Entry>, k: nat, x: Id)
    requires k < |chain| && OverAsk(s, e, number, unread, x) && s'.place == e.place
    requires DoneAsk(s, s', x, x in Ids(chain[..k + 1]), x == chain[k].id && Reports(s, chain, k), x in WaitingIds(Look(chain)[k + 1..]))
    ensures SweepsAsk(s, s', number, unread, chain, k, x)
  {
    hide DoneAsk, Ids, Reports, WaitingIds, Look;
  }

  /** The turn's end told by what was found under the numbers, of the asks themselves. */
  lemma DoneSeen(e: Thread, s': Thread, chain: seq<Entry>, k: nat, x: Id)
    requires chain != [] && Look(chain)[0].file.Delivered? && k == LastDelivered(Look(chain)) && s' == TurnDone(e, Look(chain))
    requires forall i, j :: 0 <= i < j < |chain| ==> chain[i].id != chain[j].id
    ensures k < |chain| && s' == e.(jobs := s'.jobs, failing := s'.failing, answers := s'.answers)
    ensures DoneAsk(e, s', x, x in Ids(chain[..k + 1]), x == chain[k].id && Reports(e, chain, k), x in WaitingIds(Look(chain)[k + 1..]))
  {
    hide TurnDone, LastDelivered, WaitingIds, Ids, DoneAsk, Look, FileNamed, Reports;
    LookIds(e, chain, k);
    TurnDoneIs(e, Look(chain), k, s', x);
  }

  lemma SameReports(s: Thread, e: Thread, chain: seq<Entry>, k: nat)
    requires k < |chain| && e.jobs == s.jobs
    ensures Reports(e, chain, k) == Reports(s, chain, k)
  {
  }

  lemma HeadIsSeen(chain: seq<Entry>)
    requires chain != [] && chain[0].file.Delivered?
    ensures Look(chain)[0].file.Delivered?
  {
    assert chain[0] in chain;
  }

  lemma SweepSweeps(s: Thread, i: nat, unread: seq<Id>, chain: seq<Entry>, k: nat, s': Thread)
    requires Ready(s, i, unread, chain, k) && s' == SweepStep(s, i)
    ensures k < |chain| && Sweeps(s, s', i, unread, chain, k)
  {
    var e, n := TurnOver(s, i), s.turns[i].number;
    OverIs(s, i, unread, chain, k, e);
    ChainDistinct(s, s.turns[i], chain);
    HeadIsSeen(chain);
    hide TurnOk, TurnOver, LastDelivered, WaitingIds, OverAsk, SweepsAsk, Look;
    assert s' == TurnDone(e, Look(chain));
    hide SweepStep, TurnDone;
    forall x
      ensures SweepsAsk(s, s', n, unread, chain, k, x)
    {
      SweepAt(s, e, s', n, unread, chain, k, x);
    }
    SweepAt(s, e, s', n, unread, chain, k, 0);
  }

  lemma ChainDistinct(s: Thread, t: Turn, chain: seq<Entry>)
    requires TurnOk(s, t) && (chain == t.chain || chain == AfterDrain(t))
    ensures |chain| == |t.chain| && Named(chain)
    ensures forall j :: 0 <= j < |chain| ==> chain[j].id == t.chain[j].id
    ensures forall i, j :: 0 <= i < j < |chain| ==> chain[i].id != chain[j].id
  {
    hide Entered, Unsettled, Settled;
  }

  /** Where an ask stands in the chain of a swept turn. */
  lemma Standing(chain: seq<Entry>, k: nat, j: nat)
    requires k < |chain| && j < |chain| && forall i, l :: 0 <= i < l < |chain| ==> chain[i].id != chain[l].id
    ensures chain[j].id in Ids(chain[..k + 1]) <==> j <= k
    ensures chain[j].id in WaitingIds(chain[k + 1..]) <==> j > k && chain[j].file.Waiting?
  {
    var x, to, later := chain[j].id, Ids(chain[..k + 1]), chain[k + 1..];
    if j <= k {
      assert to[j] == x;
    } else {
      assert later[j - k - 1] == chain[j];
    }
    if x in WaitingIds(later) {
      var l :| 0 <= l < |later| && later[l].id == x && later[l].file.Waiting?;
      assert chain[k + 1 + l].id == x;
    }
  }

  lemma Elsewhere(chain: seq<Entry>, k: nat, x: Id)
    requires k < |chain| && forall j :: 0 <= j < |chain| ==> chain[j].id != x
    ensures x !in Ids(chain[..k + 1]) && x !in WaitingIds(chain[k + 1..])
  {
  }

  lemma UnreadAre(t: Turn, j: nat)
    requires j < |t.chain| && forall i, l :: 0 <= i < l < |t.chain| ==> t.chain[i].id != t.chain[l].id
    ensures t.chain[j].id in WaitingIds(t.chain) <==> t.chain[j].file.Waiting?
  {
  }

  /** A file under its own number is found as it is. */
  lemma Found1(chain: seq<Entry>, j: nat)
    requires Named(chain) && j < |chain| && !chain[j].file.Taken?
    ensures Look(chain)[j].file == chain[j].file
  {
    assert chain[j] in chain;
    forall e | e in chain && e.name == chain[j].name && !e.file.Taken?
      ensures e == chain[j]
    {
      var l :| 0 <= l < |chain| && chain[l] == e;
    }
  }

  /** Where nothing waits, nothing is found waiting. */
  lemma NoneFoundWaiting(t: Turn, j: nat)
    requires !t.stopped && j < |t.chain|
    ensures !Look(AfterDrain(t))[j].file.Waiting?
  {
  }

  /** An ask of the swept turn: carried to the queue, answered by a later ask, the target, lost, dropped, or gone already. */
  lemma FateKeeps(s: Thread, s': Thread, x: Id, number: nat, unread: bool, upTo: bool, target: bool, report: bool, lost: bool)
    requires AskOk(s, x) && Entered(s, x)
    requires s'.superseded == s.superseded && s'.cancelled == s.cancelled && s'.marks == s.marks && s'.follows == s.follows && s'.untold == s.untold
    requires x in s'.place && s'.place[x] == if unread then Queued else if s.place[x] == InTurn(number) then Out else s.place[x]
    requires DoneAsk(s, s', x, upTo, report, lost)
    requires report <==> target && x !in s.superseded && x in s.jobs && !s.jobs[x].stage.Reporting? && !s.jobs[x].stage.Superseded?
    requires s.place[x] == InTurn(number) || s.place[x].Out?
    requires unread || report || (lost && x in s.jobs) ==> s.place[x] == InTurn(number)
    requires unread ==> !lost && !target && !Passed(s, x) && (upTo ==> x in s.superseded)
    requires target ==> upTo && !lost
    requires s.place[x] == InTurn(number) && !unread && !lost ==> x in s.superseded || target
    ensures AskOk(s', x)
  {
  }

  /** An ask that Claude has not taken in, or that no other stands behind, is still to be answered or carried. */
  lemma NotPassed(s: Thread, i: nat, j: nat)
    requires Numbered(s) && i < |s.turns| && TurnOk(s, s.turns[i]) && j < |s.turns[i].chain|
    requires var e := s.turns[i].chain[j]; s.place[e.id] == InTurn(s.turns[i].number) && (e.file.Delivered? ==> j == |s.turns[i].chain| - 1)
    ensures !Passed(s, s.turns[i].chain[j].id)
  {
  }

  /** A dropped ask with its job file there has its `--fail` script running still. */
  lemma ToldFails(s: Thread, x: Id)
    requires AskOk(s, x) && Told(s, x) && s.answers[Report(x)] == 0 && x in s.jobs
    ensures x in s.failing && !s.jobs[x].stage.Reporting?
  {
  }

  lemma SweepKeepsMember(s: Thread, i: nat, unread: seq<Id>, chain: seq<Entry>, k: nat, s': Thread, j: nat)
    requires Ready(s, i, unread, chain, k) && k < |chain| && j < |chain| && AskOk(s, chain[j].id)
    requires SweepsAsk(s, s', s.turns[i].number, unread, chain, k, chain[j].id)
    requires s'.superseded == s.superseded && s'.cancelled == s.cancelled && s'.marks == s.marks && s'.follows == s.follows && s'.untold == s.untold
    requires Quiet(s, chain, k) && Numbered(s)
    ensures AskOk(s', chain[j].id)
  {
    var t, x := s.turns[i], chain[j].id;
    MemberFacts(s, i, unread, chain, k, j);
    var lost := j > k && Look(chain)[j].file.Waiting?;
    if s.place[x] == InTurn(t.number) {
      if x in unread || j == |chain| - 1 == k { NotPassed(s, i, j); }
    } else if x in s.jobs {
      ToldFails(s, x);
    }
    hide Passed, LastDelivered, WaitingIds, Ids, Linear, TurnOk, Entered, EntryOk, Look, Ready;
    FateKeeps(s, s', x, t.number, x in unread, j <= k, j == k, j == k && Reports(s, chain, k), lost);
  }

  lemma MemberFacts(s: Thread, i: nat, unread: seq<Id>, chain: seq<Entry>, k: nat, j: nat)
    requires Ready(s, i, unread, chain, k) && j < |chain|
    ensures k < |chain| == |s.turns[i].chain| && var t, x := s.turns[i], chain[j].id;
      && x == t.chain[j].id && Entered(s, x) && (s.place[x] == InTurn(t.number) || (Told(s, x) && s.answers[Report(x)] == 0))
      && (x in Ids(chain[..k + 1]) <==> j <= k)
      && (x in WaitingIds(Look(chain)[k + 1..]) <==> j > k && Look(chain)[j].file.Waiting?)
      && (x == chain[k].id <==> j == k)
      && (x in unread ==> s.place[x] == InTurn(t.number) && j != k && t.chain[j].file.Waiting? && !Look(chain)[j].file.Waiting?)
      && (s.place[x] == InTurn(t.number) && x !in unread && !(j > k && Look(chain)[j].file.Waiting?) && j != k ==> x in s.superseded)
      && (s.place[x] == InTurn(t.number) && j == k ==> t.chain[j].file.Delivered?)
      && (chain[j].file.Waiting? ==> s.place[x] == InTurn(t.number) && j != k && x !in unread && Look(chain)[j].file.Waiting?)
      && (j < |chain| - 1 ==> x in s.superseded)
  {
    hide WaitingIds, Ids, TurnOk, Entered, Look;
    var t := s.turns[i];
    ChainDistinct(s, t, t.chain);
    ChainDistinct(s, t, chain);
    LookStanding(chain, k, j);
    UnreadAre(t, j);
    MemberPlaces(s, t, j);
    MemberSeen(s, t, chain, k, j);
    hide LastDelivered;
  }

  lemma LookStanding(chain: seq<Entry>, k: nat, j: nat)
    requires k < |chain| && j < |chain| && forall i, l :: 0 <= i < l < |chain| ==> chain[i].id != chain[l].id
    ensures chain[j].id in Ids(chain[..k + 1]) <==> j <= k
    ensures chain[j].id in WaitingIds(Look(chain)[k + 1..]) <==> j > k && Look(chain)[j].file.Waiting?
  {
    var look := Look(chain);
    hide FileNamed;
    Standing(look, k, j);
    Standing(chain, k, j);
  }

  /** How the sweep finds an ask of the turn: one in the inbox as it is. */
  lemma MemberSeen(s: Thread, t: Turn, chain: seq<Entry>, k: nat, j: nat)
    requires TurnOk(s, t) && chain == AfterDrain(t) && k == Answers(t) && j < |chain|
    ensures Look(chain)[k].file.Delivered? && (j > k ==> !Look(chain)[j].file.Delivered?)
    ensures !t.stopped ==> !Look(chain)[j].file.Waiting?
    ensures !chain[j].file.Taken? ==> Look(chain)[j].file == chain[j].file
    ensures chain[j].file.Waiting? ==> t.stopped && t.chain[j].file.Waiting?
    ensures t.chain[j].file.Delivered? <==> chain[j].file.Delivered?
    ensures !t.stopped ==> !chain[j].file.Waiting?
  {
    ChainDistinct(s, t, chain);
    HeadIsSeen(chain);
    hide TurnOk, Look, FileNamed;
    if !chain[j].file.Taken? { Found1(chain, j); }
    if !t.stopped { NoneFoundWaiting(t, j); }
  }

  lemma MemberPlaces(s: Thread, t: Turn, j: nat)
    requires TurnOk(s, t) && t.number !in s.settled && j < |t.chain|
    ensures var x := t.chain[j].id;
      && Entered(s, x)
      && (if s.place[x] == InTurn(t.number) then !t.chain[j].file.Taken? else Told(s, x) && s.answers[Report(x)] == 0 && !t.chain[j].file.Waiting?)
      && (j + 1 < |t.chain| ==> x in s.superseded)
  {
    assert EntryOk(s, t.chain[j], t.number) && Entered(s, t.chain[j].id);
    assert j + 1 < |t.chain| ==> Joined(s, t.chain[j].id, t.chain[j + 1].id);
  }

  lemma SameOk(s: Thread, s': Thread, x: Id)
    requires AskOk(s, x) && Same(s, s', x)
    requires s'.superseded == s.superseded && s'.cancelled == s.cancelled && s'.marks == s.marks && s'.follows == s.follows && s'.untold == s.untold
    requires Passed(s, x) ==> Passed(s', x)
    ensures AskOk(s', x)
  {
    hide Passed;
  }

  lemma NotFoundIn(s: Thread, i: nat, x: Id)
    requires TurnsOk(s) && i < |s.turns| && forall j :: 0 <= j < |s.turns[i].chain| ==> s.turns[i].chain[j].id != x
    ensures x in s.place ==> s.place[x] != InTurn(s.turns[i].number)
  {
    hide TurnOk;
    if x in s.place && s.place[x].InTurn? {
      assert Found(s, x);
    }
  }

  lemma OutsideFacts(s: Thread, i: nat, unread: seq<Id>, chain: seq<Entry>, k: nat, x: Id)
    requires Ready(s, i, unread, chain, k) && TurnsOk(s) && forall j :: 0 <= j < |chain| ==> chain[j].id != x
    ensures k < |chain| && x !in unread && x !in Ids(chain[..k + 1]) && x !in WaitingIds(Look(chain)[k + 1..]) && x != chain[k].id
    ensures x in s.place ==> s.place[x] != InTurn(s.turns[i].number)
  {
    hide TurnsOk;
    var t := s.turns[i];
    ChainDistinct(s, t, chain);
    hide TurnOk, FileNamed;
    Elsewhere(chain, k, x);
    Elsewhere(Look(chain), k, x);
    assert forall j :: 0 <= j < |t.chain| ==> t.chain[j].id == chain[j].id;
    assert x !in unread;
    NotFoundIn(s, i, x);
  }

  lemma SweepKeepsOther(s: Thread, i: nat, unread: seq<Id>, chain: seq<Entry>, k: nat, s': Thread, x: Id)
    requires Ready(s, i, unread, chain, k) && AskOk(s, x) && TurnsOk(s) && forall j :: 0 <= j < |chain| ==> chain[j].id != x
    requires SweepsAsk(s, s', s.turns[i].number, unread, chain, k, x)
    requires s'.superseded == s.superseded && s'.cancelled == s.cancelled && s'.marks == s.marks && s'.follows == s.follows && s'.untold == s.untold
    requires |s'.turns| == |s.turns| && forall j :: 0 <= j < |s.turns| ==> Carries(s.turns[j], s'.turns[j])
    ensures AskOk(s', x)
  {
    OutsideFacts(s, i, unread, chain, k, x);
    assert x in s.place ==> s'.place[x] == s.place[x];
    hide Ready, TurnsOk, WaitingIds, Ids, AskOk, Carries;
    if x in s.place && Passed(s, x) { PassedKept(s, s', x); }
    hide Passed;
    SameOk(s, s', x);
  }

  // ---- The sweep and the turns ----

  lemma FateSeen(s: Thread, s': Thread, x: Id, number: nat, unread: bool, upTo: bool, report: bool, lost: bool)
    requires (x in s'.place <==> x in s.place) && s'.cancelled == s.cancelled && DoneAsk(s, s', x, upTo, report, lost)
    requires x in s.place ==> s'.place[x] == if unread then Queued else if s.place[x] == InTurn(number) then Out else s.place[x]
    requires x in s.place && (unread || report) ==> s.place[x] == InTurn(number)
    ensures Seen(s, s', x)
  {
  }

  lemma SweepSeen(s: Thread, i: nat, unread: seq<Id>, chain: seq<Entry>, k: nat, s': Thread, x: Id)
    requires Ready(s, i, unread, chain, k) && TurnsOk(s) && k < |chain| && Quiet(s, chain, k) && AskOk(s, x)
    requires SweepsAsk(s, s', s.turns[i].number, unread, chain, k, x)
    requires s'.cancelled == s.cancelled
    ensures Seen(s, s', x)
  {
    if j :| 0 <= j < |chain| && chain[j].id == x {
      MemberFacts(s, i, unread, chain, k, j);
      if s.place[x] != InTurn(s.turns[i].number) && x in s.jobs { ToldFails(s, x); }
    } else {
      OutsideFacts(s, i, unread, chain, k, x);
    }
    hide Ready, TurnsOk, WaitingIds, Ids, Entered, DoneAsk, Look, AskOk;
    FateSeen(s, s', x, s.turns[i].number, x in unread, x in Ids(chain[..k + 1]), x == chain[k].id && Reports(s, chain, k), x in WaitingIds(Look(chain)[k + 1..]));
  }

  lemma SweptEntered(s: Thread, i: nat, unread: seq<Id>, chain: seq<Entry>, k: nat, s': Thread, j: nat)
    requires Ready(s, i, unread, chain, k) && j < |chain| && Seen(s, s', chain[j].id)
    ensures Entered(s', chain[j].id)
  {
    hide LastDelivered, WaitingIds, Entered;
    assert Entered(s, s.turns[i].chain[j].id);
    hide TurnOk;
    MovedIn(s, s', chain[j].id);
  }

  /** After its sweep the asks up to the target are over, and those still in the inbox have been told. */
  lemma SweptFate(s: Thread, i: nat, unread: seq<Id>, chain: seq<Entry>, k: nat, s': Thread, j: nat)
    requires Ready(s, i, unread, chain, k) && j < |chain| && AskOk(s, chain[j].id)
    requires k < |chain| && SweepsAsk(s, s', s.turns[i].number, unread, chain, k, chain[j].id)
    ensures j <= k ==> Closed(s', chain[j].id)
    ensures chain[j].file.Waiting? ==> Told(s', chain[j].id)
  {
    MemberFacts(s, i, unread, chain, k, j);
    hide Ready, LastDelivered, WaitingIds, Ids, Entered, Reports, Look;
  }

  lemma SweptTurnOk(s: Thread, i: nat, unread: seq<Id>, chain: seq<Entry>, k: nat, s': Thread)
    requires Ready(s, i, unread, chain, k) && k < |chain| && Sweeps(s, s', i, unread, chain, k) && AsksOk(s) && forall x :: Seen(s, s', x)
    ensures TurnOk(s', s'.turns[i])
  {
    assert i < |s.turns|;
    hide Ready, Seen, Entered, SweepsAsk, Closed, Told, TurnOk, AskOk;
    forall j | 0 <= j < |chain|
      ensures Entered(s', chain[j].id)
      ensures j <= k ==> Closed(s', chain[j].id)
      ensures chain[j].file.Waiting? ==> Told(s', chain[j].id)
    {
      SweptEntered(s, i, unread, chain, k, s', j);
      assert SweepsAsk(s, s', s.turns[i].number, unread, chain, k, chain[j].id) && AskOk(s, chain[j].id);
      SweptFate(s, i, unread, chain, k, s', j);
    }
    SweptSettled(s, i, unread, chain, k, s');
  }

  lemma SweptSettled(s: Thread, i: nat, unread: seq<Id>, chain: seq<Entry>, k: nat, s': Thread)
    requires Ready(s, i, unread, chain, k) && i < |s'.turns| && s'.turns[i] == s.turns[i].(chain := chain, swept := true, reported := true)
    requires s'.settled == s.settled + {s.turns[i].number} && s'.follows == s.follows && s'.superseded == s.superseded
    requires forall j :: 0 <= j < |chain| ==> Entered(s', chain[j].id)
    requires forall j :: 0 <= j <= k < |chain| ==> Closed(s', chain[j].id)
    requires forall j :: 0 <= j < |chain| && chain[j].file.Waiting? ==> Told(s', chain[j].id)
    ensures TurnOk(s', s'.turns[i])
  {
    hide Entered, Closed, Told, WaitingIds, FileNamed;
    var t, t' := s.turns[i], s'.turns[i];
    ChainDistinct(s, t, chain);
    HeadIsSeen(chain);
    assert Linear(s', chain) by {
      forall j, l | 0 <= j && l == j + 1 && l < |chain|
        ensures Joined(s', chain[j].id, chain[l].id)
      {
        assert Joined(s, t.chain[j].id, t.chain[l].id);
      }
    }
    assert Settled(s', t');
  }

  lemma MovedIn(s: Thread, s': Thread, x: Id)
    requires Seen(s, s', x) && Entered(s, x)
    ensures Entered(s', x)
  {
  }

  lemma SweptPlaces(s: Thread, i: nat, unread: seq<Id>, chain: seq<Entry>, k: nat, s': Thread, x: Id)
    requires Ready(s, i, unread, chain, k) && Sweeps(s, s', i, unread, chain, k)
    ensures x in unread ==> x in s.place && s.place[x] == InTurn(s.turns[i].number)
    ensures x in s'.place <==> x in s.place
    ensures x in s.place ==> s'.place[x] == if x in unread then Queued else if s.place[x] == InTurn(s.turns[i].number) then Out else s.place[x]
  {
    assert SweepsAsk(s, s', s.turns[i].number, unread, chain, k, x);
    UnreadWait(s, s.turns[i]);
    hide TurnOk, DoneAsk, LastDelivered, WaitingIds, Ids;
  }

  lemma SweepKeepsTurns(s: Thread, i: nat, unread: seq<Id>, chain: seq<Entry>, k: nat, s': Thread)
    requires TurnsOk(s) && AsksOk(s) && Ready(s, i, unread, chain, k) && k < |chain| && Sweeps(s, s', i, unread, chain, k)
    requires forall x :: Seen(s, s', x)
    ensures TurnsOk(s')
  {
    var n := s.turns[i].number;
    hide TurnOk, Seen, LastDelivered, WaitingIds, Ids;
    SweptTurnOk(s, i, unread, chain, k, s');
    forall x
      ensures x in s.place && s.place[x] != InTurn(n) && s.place[x].InTurn? ==> x in s'.place && s'.place[x] == s.place[x]
      ensures x in s'.place && s'.place[x].InTurn? ==> x in s.place && s'.place[x] == s.place[x] && s.place[x] != InTurn(n)
    {
      SweptPlaces(s, i, unread, chain, k, s', x);
    }
    hide Ready, SweepsAsk;
    OthersSweep(s, i, s');
  }

  lemma OthersSweep(s: Thread, i: nat, s': Thread)
    requires TurnsOk(s) && i < |s.turns| && |s'.turns| == |s.turns| && s'.turns == s.turns[i := s'.turns[i]] && s'.turns[i].number == s.turns[i].number
    requires Later(s, s') && s'.settled == s.settled + {s.turns[i].number} && s'.started == s.started
    requires TurnOk(s', s'.turns[i]) && forall x :: Seen(s, s', x)
    requires forall x :: x in s.place && s.place[x] != InTurn(s.turns[i].number) && s.place[x].InTurn? ==> x in s'.place && s'.place[x] == s.place[x]
    requires forall x :: x in s'.place && s'.place[x].InTurn? ==>
      x in s.place && s'.place[x] == s.place[x] && s.place[x] != InTurn(s.turns[i].number)
    ensures TurnsOk(s')
  {
    hide TurnOk, Seen;
    forall j | 0 <= j < |s.turns| && j != i
      ensures TurnOk(s', s'.turns[j])
    {
      assert s.turns[j].number != s.turns[i].number && TurnOk(s, s.turns[j]);
      TurnKept(s, s', s.turns[j]);
    }
    forall x | x in s'.place && s'.place[x].InTurn?
      ensures Found(s', x)
    {
      assert Found(s, x);
      SweepFound(s, s', i, x);
    }
  }

  lemma SweepFound(s: Thread, s': Thread, i: nat, x: Id)
    requires Found(s, x) && i < |s.turns| && |s'.turns| == |s.turns| && s'.turns == s.turns[i := s'.turns[i]]
    requires s'.settled == s.settled + {s.turns[i].number} && x in s'.place && s'.place[x] == s.place[x]
    requires s.place[x] != InTurn(s.turns[i].number)
    ensures Found(s', x)
  {
    var j :| 0 <= j < |s.turns| && In(s, x, s.turns[j]);
    assert j != i && In(s', x, s'.turns[j]);
  }

  lemma SweptQueued(s: Thread, i: nat, unread: seq<Id>, chain: seq<Entry>, k: nat, s': Thread, x: Id)
    requires Ready(s, i, unread, chain, k) && Sweeps(s, s', i, unread, chain, k) && Seen(s, s', x)
    ensures x in s'.place && s'.place[x].Queued? <==> x in unread || (x in s.place && s.place[x].Queued?)
    ensures x in unread ==> x in s.place && !s.place[x].Queued?
    ensures Entered(s, x) ==> Entered(s', x)
  {
    SweptPlaces(s, i, unread, chain, k, s', x);
  }

  lemma SweepKeepsQueue(s: Thread, i: nat, unread: seq<Id>, chain: seq<Entry>, k: nat, s': Thread)
    requires QueueOk(s) && Ready(s, i, unread, chain, k) && Sweeps(s, s', i, unread, chain, k) && forall x :: Seen(s, s', x)
    ensures QueueOk(s')
  {
    assert k < |chain|;
    hide Ready, SweepsAsk, Entered, Seen;
    UnreadOf(s, i, unread, chain, k);
    forall x
      ensures x in s'.place && s'.place[x].Queued? <==> x in unread || (x in s.place && s.place[x].Queued?)
      ensures x in unread ==> x in s.place && !s.place[x].Queued?
      ensures Entered(s, x) ==> Entered(s', x)
    {
      SweptQueued(s, i, unread, chain, k, s', x);
    }
    assert s'.queue == unread + s.queue;
    hide Sweeps;
    QueueAhead(s, s', unread);
  }

  lemma QueueAhead(s: Thread, s': Thread, unread: seq<Id>)
    requires QueueOk(s) && Distinct(unread) && s'.queue == unread + s.queue
    requires forall x :: x in s'.place && s'.place[x].Queued? <==> x in unread || (x in s.place && s.place[x].Queued?)
    requires forall x :: x in unread ==> x in s.place && !s.place[x].Queued? && Entered(s, x)
    requires forall x :: Entered(s, x) ==> Entered(s', x)
    ensures QueueOk(s')
  {
    hide Entered;
    forall a, b | 0 <= a < b < |s'.queue|
      ensures s'.queue[a] != s'.queue[b]
    {
      if a < |unread| <= b {
        assert s'.queue[a] in unread && s.queue[b - |unread|] in s.queue;
      }
    }
  }

  lemma SweepIsReady(s: Thread, i: nat) returns (unread: seq<Id>, chain: seq<Entry>, k: nat)
    requires TurnsOk(s) && i < |s.turns| && s.turns[i].ended && !s.turns[i].reported && s.turns[i].number !in s.settled
    requires s.turns[i].chain != [] && s.turns[i].chain[0].file.Delivered?
    ensures Ready(s, i, unread, chain, k) && k < |chain| && (!Early(s, i) && !Retold(s, i) ==> Quiet(s, chain, k))
    ensures Reports(s, chain, k) == Reports(s, s.turns[i].chain, k) && chain[k].id == s.turns[i].chain[k].id
  {
    var t := s.turns[i];
    unread := if t.stopped then [] else WaitingIds(t.chain);
    chain := AfterDrain(t);
    k := Answers(t);
    assert TurnOk(s, t);
    ChainDistinct(s, t, chain);
    hide LastDelivered, WaitingIds, TurnOk, TurnsOk, Look;
    if !Early(s, i) && !Retold(s, i) {
      forall j | k < j < |chain| && Look(chain)[j].file.Waiting? && chain[j].id in s.jobs
        ensures chain[j].id !in s.failing
      {
        assert !Loses(s, t, j);
      }
    }
  }

  lemma SweepCarries(s: Thread, i: nat, unread: seq<Id>, chain: seq<Entry>, k: nat, s': Thread)
    requires Ready(s, i, unread, chain, k) && k < |chain| && Sweeps(s, s', i, unread, chain, k)
    ensures |s'.turns| == |s.turns| && forall j :: 0 <= j < |s.turns| ==> Carries(s.turns[j], s'.turns[j])
  {
    hide TurnOk, SweepsAsk, LastDelivered;
  }

  lemma SweepKeepsAsks(s: Thread, i: nat, unread: seq<Id>, chain: seq<Entry>, k: nat, s': Thread)
    requires TurnsOk(s) && AsksOk(s) && Ready(s, i, unread, chain, k) && k < |chain| && Sweeps(s, s', i, unread, chain, k)
    requires Quiet(s, chain, k)
    ensures AsksOk(s') && forall x :: Seen(s, s', x)
  {
    assert i < |s.turns|;
    SweepCarries(s, i, unread, chain, k, s');
    hide TurnsOk, Ready, SweepsAsk, AskOk, Seen, Carries, Quiet;
    forall x
      ensures AskOk(s', x) && Seen(s, s', x)
    {
      assert SweepsAsk(s, s', s.turns[i].number, unread, chain, k, x) && AskOk(s, x);
      SweepKeepsAsk(s, i, unread, chain, k, s', x);
    }
  }

  lemma FirstSweepKeeps(s: Thread, i: nat, s': Thread)
    requires Inv(s) && i < |s.turns| && s.turns[i].ended && !s.turns[i].reported && s.turns[i].number !in s.settled
    requires s.turns[i].chain != [] && s.turns[i].chain[0].file.Delivered? && !Early(s, i) && !Retold(s, i) && s' == SweepStep(s, i)
    ensures Inv(s')
  {
    hide TurnsOk, AsksOk, QueueOk, Ready, SweepStep, Early, Retold, Quiet, Sweeps, Seen;
    var unread, chain, k := SweepIsReady(s, i);
    SweepSweeps(s, i, unread, chain, k, s');
    SweepKeepsAsks(s, i, unread, chain, k, s');
    SweepKeepsTurns(s, i, unread, chain, k, s');
    SweepKeepsQueue(s, i, unread, chain, k, s');
  }

  lemma SweepKeepsAsk(s: Thread, i: nat, unread: seq<Id>, chain: seq<Entry>, k: nat, s': Thread, x: Id)
    requires Ready(s, i, unread, chain, k) && AskOk(s, x) && TurnsOk(s) && k < |chain| && Quiet(s, chain, k)
    requires SweepsAsk(s, s', s.turns[i].number, unread, chain, k, x)
    requires s'.superseded == s.superseded && s'.cancelled == s.cancelled && s'.marks == s.marks && s'.follows == s.follows && s'.untold == s.untold
    requires |s'.turns| == |s.turns| && forall j :: 0 <= j < |s.turns| ==> Carries(s.turns[j], s'.turns[j])
    ensures AskOk(s', x) && Seen(s, s', x)
  {
    assert Numbered(s);
    SweepSeen(s, i, unread, chain, k, s', x);
    hide SweepsAsk, AskOk, Seen, TurnOk, TurnsOk, WaitingIds, LastDelivered, Quiet, Look;
    if j :| 0 <= j < |chain| && chain[j].id == x {
      SweepKeepsMember(s, i, unread, chain, k, s', j);
    } else {
      SweepKeepsOther(s, i, unread, chain, k, s', x);
    }
  }

  lemma SilentSweepKeeps(s: Thread, i: nat)
    requires Inv(s) && i < |s.turns| && s.turns[i].ended && !s.turns[i].swept && s.turns[i].reported
    requires s.turns[i].chain != [] && s.turns[i].chain[0].file.Delivered?
    ensures Inv(SweepStep(s, i))
  {
    hide AsksOk, QueueOk;
    var t := s.turns[i];
    assert TurnOk(s, t) && t.stopped;
    assert Unsettled(s, t.(swept := true)) && Linear(s, t.chain);
    hide TurnsOk;
    OneTurnKeeps(s, i, t.(swept := true));
  }

  /** A sweep told its end already, by an agent that died: nothing is left to tell. */
  lemma SecondSweepKeeps(s: Thread, i: nat, s': Thread)
    requires Inv(s) && i < |s.turns| && !s.turns[i].swept && !s.turns[i].reported && s.turns[i].number in s.settled
    requires s.turns[i].chain != [] && s.turns[i].chain[0].file.Delivered? && s' == SweepStep(s, i)
    ensures Inv(s')
  {
    hide AsksOk, QueueOk, SweepStep;
    var t := s.turns[i];
    assert TurnOk(s, t);
    var t' := t.(swept := true, reported := true);
    assert TurnOk(s, t') by { assert Settled(s, t') && Linear(s, t'.chain); }
    hide TurnsOk, TurnOk;
    NothingLeft(s, i);
    OneTurnKeeps(s, i, t');
  }

  lemma {:induction false} NoneWaiting(chain: seq<Entry>)
    requires forall k :: 0 <= k < |chain| ==> !chain[k].file.Waiting?
    ensures WaitingIds(chain) == []
  {
    if chain != [] { NoneWaiting(chain[..|chain| - 1]); }
  }

  lemma NothingWaits(chain: seq<Entry>)
    requires forall k :: 0 <= k < |chain| ==> !chain[k].file.Waiting?
    ensures WaitingIds(chain) == [] && forall late :: Emptied(chain, late) == chain
    ensures forall k :: 0 <= k < |chain| ==> !Look(chain)[k].file.Waiting?
  {
    NoneWaiting(chain);
  }

  lemma NothingToTell(s: Thread, chain: seq<Entry>)
    requires chain != [] && chain[0].file.Delivered? && forall k :: 0 <= k < |chain| ==> !chain[k].file.Waiting?
    requires forall k, j :: 0 <= k <= j < |chain| && chain[j].file.Delivered? ==> Closed(s, chain[k].id)
    ensures TurnDone(s, chain) == s
  {
    var k, t := LastDelivered(chain), TurnTarget(chain);
    NothingWaits(chain[k + 1..]);
    hide LastDelivered, WaitingIds;
    forall id | id in t.superseded && id in s.jobs
      ensures s.jobs[id].stage.Reporting?
    {
      var j :| 0 <= j < k && t.superseded[j] == id;
      assert chain[..k][j] == chain[j] && Closed(s, chain[j].id);
    }
    var gone := set id | id in t.superseded && id in s.jobs && !s.jobs[id].stage.Reporting?;
    assert gone == {} && s.jobs - gone == s.jobs && Closed(s, chain[k].id);
  }

  lemma NothingLeft(s: Thread, i: nat)
    requires TurnsOk(s) && i < |s.turns| && !s.turns[i].swept && !s.turns[i].reported && s.turns[i].number in s.settled
    requires s.turns[i].chain != [] && s.turns[i].chain[0].file.Delivered?
    ensures SweepStep(s, i) == SetTurn(s, i, s.turns[i].(swept := true, reported := true))
  {
    var t := s.turns[i];
    assert TurnOk(s, t);
    NothingWaits(t.chain);
    forall x | x in s.place && s.place[x].InTurn?
      ensures s.place[x] != InTurn(t.number)
    {
      assert Found(s, x);
    }
    HeadIsSeen(t.chain);
    hide TurnsOk, WaitingIds, TurnDone, FileNamed;
    var e := TurnOver(s, i);
    assert Emptied(t.chain, {}) == t.chain;
    assert e.place == s.place && e.queue == s.queue && e.settled == s.settled;
    assert e.turns == s.turns[i := t.(swept := true, reported := true)];
    assert forall k :: 0 <= k < |t.chain| ==> (Closed(s, t.chain[k].id) ==> Closed(e, t.chain[k].id));
    NothingToTell(e, Look(t.chain));
  }

  // ---- Whole runs ----

  lemma StepKeeps(s: Thread, a: Action)
    requires Inv(s) && Enabled(s, a) && Clean(s, a)
    ensures Inv(Step(s, a))
  {
    hide Inv;
    match a
    case Ask(id) => AskKeeps(s, id);
    case PrepareFailed(id) => PrepareKeeps(s, id);
    case PrepareTimedOut(id) => PrepareKeeps(s, id);
    case Prepared(id) => PrepareKeeps(s, id);
    case SendDone(id, how) => SendDoneKeeps(s, id, how);
    case StartNext => StartNextKeeps(s);
    case Start(id) => StartKeeps(s, id);
    case SteerBegin(id, prev) => SteerBeginKeeps(s, id, prev);
    case SteerFind(id) => SteerFindKeeps(s, id);
    case SteerDecide(id, text, open, name) => DecideKeeps(s, id, text, open, name);
    case Mark(id) => MarkKeeps(s, id);
    case Tick(i, listed) => TickKeeps(s, i, listed);
    case Deliver(i) => DeliverKeeps(s, i);
    case Stop(i) => FlagsKeep(s, i, a);
    case Exit(i) => FlagsKeep(s, i, a);
    case Sweep(i) =>
      if s.turns[i].reported { SilentSweepKeeps(s, i); }
      else if s.turns[i].number in s.settled { SecondSweepKeeps(s, i, SweepStep(s, i)); }
      else { FirstSweepKeeps(s, i, SweepStep(s, i)); }
    case SweepEnd(i) => SweepEndKeeps(s, i);
    case Drop(late, left) => DropKeeps(s, late, left);
    case Cancel(id) => CancelKeeps(s, id);
    case CancelAsk(id) => CancelAskKeeps(s, id);
    case CancelRest(tomb) => CancelRestKeeps(s, tomb);
    case ScriptEnd(id) => ScriptEndKeeps(s, id);
    case Reconcile(id) => ReconcileKeeps(s, id);
    case Restart(died) => RestartKeeps(s, died);
  }

  ghost predicate ValidRun(s: Thread, acts: seq<Action>)
    decreases |acts|
  {
    acts == [] || (Enabled(s, acts[0]) && ValidRun(Step(s, acts[0]), acts[1..]))
  }

  ghost function Run(s: Thread, acts: seq<Action>): Thread
    requires ValidRun(s, acts)
    decreases |acts|
  {
    if acts == [] then s else Run(Step(s, acts[0]), acts[1..])
  }

  ghost predicate CleanRun(s: Thread, acts: seq<Action>)
    requires ValidRun(s, acts)
    decreases |acts|
  {
    acts == [] || (Clean(s, acts[0]) && CleanRun(Step(s, acts[0]), acts[1..]))
  }

  lemma {:induction false} RunKeeps(s: Thread, acts: seq<Action>)
    requires Inv(s) && ValidRun(s, acts) && CleanRun(s, acts)
    ensures Inv(Run(s, acts))
    decreases |acts|
  {
    hide Inv, Step, Enabled, Clean;
    if acts != [] {
      StepKeeps(s, acts[0]);
      RunKeeps(Step(s, acts[0]), acts[1..]);
    }
  }

  ghost predicate Untorn(s: Thread, acts: seq<Action>)
    requires ValidRun(s, acts)
    decreases |acts|
  {
    acts == [] || (!Torn(s, acts[0]) && Untorn(Step(s, acts[0]), acts[1..]))
  }

  /** No ask has two answers, or one while it is on its way; no ask that a follow-up joined is reported. */
  ghost predicate Good(s: Thread) {
    && (forall id :: Count(s, id) <= 1)
    && (forall id :: id in s.place && !s.place[id].Out? ==> Count(s, id) == 0)
    && (forall id :: id in s.superseded ==> s.answers[Report(id)] == 0)
  }

  ghost predicate AlwaysGood(s: Thread, acts: seq<Action>)
    requires ValidRun(s, acts)
    decreases |acts|
  {
    Good(s) && (acts == [] || AlwaysGood(Step(s, acts[0]), acts[1..]))
  }

  lemma InvIsGood(s: Thread)
    requires Inv(s)
    ensures Good(s)
  {
    hide TurnsOk, QueueOk;
    forall id
      ensures Count(s, id) <= 1
      ensures id in s.place && !s.place[id].Out? ==> Count(s, id) == 0
      ensures id in s.superseded ==> s.answers[Report(id)] == 0
    {
      assert AskOk(s, id);
    }
  }

  /** A sweep that tells something is the turn's first. */
  lemma TellsFirst(s: Thread, i: nat)
    requires TurnsOk(s) && Enabled(s, Sweep(i)) && (Early(s, i) || Retold(s, i))
    ensures s.turns[i].number !in s.settled
  {
    var t := s.turns[i];
    assert TurnOk(s, t);
    if t.number in s.settled {
      SettledTells(s, t);
    }
  }

  lemma SettledTells(s: Thread, t: Turn)
    requires TurnOk(s, t) && Settled(s, t) && !t.swept
    ensures !Reports(s, t.chain, Answers(t)) && forall j :: 0 <= j < |t.chain| ==> !Look(AfterDrain(t))[j].file.Waiting?
  {
    NothingWaits(t.chain);
    HeadIsSeen(t.chain);
    assert AfterDrain(t) == t.chain;
    hide FileNamed;
    assert Closed(s, t.chain[Answers(t)].id);
  }

  lemma EarlyIsBad(s: Thread, i: nat)
    requires Inv(s) && Enabled(s, Sweep(i)) && Early(s, i)
    ensures !Good(SweepStep(s, i))
  {
    hide TurnsOk, QueueOk, SweepStep, LastDelivered, WaitingIds, TurnOk, AskOk, Look;
    var s' := SweepStep(s, i);
    TellsFirst(s, i);
    var unread, chain, k := SweepIsReady(s, i);
    assert k == Answers(s.turns[i]);
    SweepSweeps(s, i, unread, chain, k, s');
    assert SweepsAsk(s, s', s.turns[i].number, unread, chain, k, chain[k].id);
  }

  lemma RetoldIsBad(s: Thread, i: nat)
    requires Inv(s) && Enabled(s, Sweep(i)) && Retold(s, i)
    ensures !Good(SweepStep(s, i))
  {
    hide TurnsOk, QueueOk, SweepStep, LastDelivered, WaitingIds, TurnOk, Look, Ready, Early;
    var s', t := SweepStep(s, i), s.turns[i];
    TellsFirst(s, i);
    var unread, chain, k := SweepIsReady(s, i);
    assert k == Answers(t) && chain == AfterDrain(t) by { ReadySays(s, i, unread, chain, k); }
    SweepSweeps(s, i, unread, chain, k, s');
    if Reports(s, t.chain, k) && t.chain[k].id in s.failing {
      ToldTwice(s, s', t, unread, chain, k, k);
    } else {
      var j :| k < j < |t.chain| && Loses(s, t, j);
      ReadyDistinct(s, i, unread, chain, k);
      ToldTwice(s, s', t, unread, chain, k, j);
    }
  }

  lemma ReadySays(s: Thread, i: nat, unread: seq<Id>, chain: seq<Entry>, k: nat)
    requires Ready(s, i, unread, chain, k)
    ensures chain == AfterDrain(s.turns[i]) && k == Answers(s.turns[i])
  {
  }

  lemma ReadyDistinct(s: Thread, i: nat, unread: seq<Id>, chain: seq<Entry>, k: nat)
    requires Ready(s, i, unread, chain, k)
    ensures |chain| == |s.turns[i].chain| && forall j :: 0 <= j < |chain| ==> chain[j].id == s.turns[i].chain[j].id
    ensures forall j, l :: 0 <= j < l < |chain| ==> chain[j].id != chain[l].id
  {
    ChainDistinct(s, s.turns[i], chain);
  }

  /** The sweep's answer comes on top of one the ask has. */
  lemma ToldTwice(s: Thread, s': Thread, t: Turn, unread: seq<Id>, chain: seq<Entry>, k: nat, j: nat)
    requires AsksOk(s) && k < |chain| && j < |chain| && chain[j].id in s.jobs && chain[j].id in s.failing
    requires SweepsAsk(s, s', t.number, unread, chain, k, chain[j].id)
    requires if j == k then Reports(s, chain, k)
             else j > k && Look(chain)[j].file.Waiting? && forall i, l :: 0 <= i < l < |chain| ==> chain[i].id != chain[l].id
    ensures !Good(s')
  {
    var x := chain[j].id;
    assert AskOk(s, x);
    if j != k { LookStanding(chain, k, j); }
    hide Look, WaitingIds, Ids;
    assert Count(s', x) > 1;
  }

  lemma StrayIsBad(s: Thread, id: Id)
    requires Inv(s) && Stray(s, id)
    ensures !Good(ReconcileStep(s, id))
  {
    hide TurnsOk, QueueOk, FindTurn;
    assert AskOk(s, id);
    assert Count(ReconcileStep(s, id), id) == Count(s, id) + 1;
  }

  lemma CleanIffGood(s: Thread, a: Action)
    requires Inv(s) && Enabled(s, a) && !Torn(s, a)
    ensures Good(Step(s, a)) <==> Clean(s, a)
    ensures Clean(s, a) ==> Inv(Step(s, a))
  {
    hide Inv, Good, Early, Retold, Stray, Relost, Torn;
    if Clean(s, a) {
      StepKeeps(s, a);
      InvIsGood(Step(s, a));
    } else if a.Sweep? {
      if Early(s, a.turn) { EarlyIsBad(s, a.turn); } else { RetoldIsBad(s, a.turn); }
    } else if a.Drop? {
      RelostIsBad(s, a.late, a.left);
    } else {
      StrayIsBad(s, a.id);
    }
  }

  lemma {:induction false} CleanIffGoodRun(s: Thread, acts: seq<Action>)
    requires Inv(s) && ValidRun(s, acts) && Untorn(s, acts)
    ensures AlwaysGood(s, acts) <==> CleanRun(s, acts)
    decreases |acts|
  {
    hide Inv, Good, Step, Enabled, Clean, Torn;
    InvIsGood(s);
    if acts != [] {
      CleanIffGood(s, acts[0]);
      if Clean(s, acts[0]) {
        CleanIffGoodRun(Step(s, acts[0]), acts[1..]);
      }
    }
  }

  lemma NoneKeeps()
    ensures Inv(NONE)
  {
  }

  /**
   * A thread's whole life: no ask is answered twice, answered while on its way, or reported once a
   * follow-up has joined it, exactly when no sweep, reconcile or drop falls into the window of a steer, a
   * queued ask's start or a failure being told; given that no crash tears one of those in two.
   */
  lemma NoneAnsweredTwiceIff(acts: seq<Action>)
    requires ValidRun(NONE, acts) && Untorn(NONE, acts)
    ensures AlwaysGood(NONE, acts) <==> CleanRun(NONE, acts)
  {
    NoneKeeps();
    CleanIffGoodRun(NONE, acts);
  }

  /**
   * And then each ask that was not canceled and that no follow-up joined is over exactly when it has its one
   * answer; but one whose clone took too long is over with none.
   */
  lemma NewestIsAnswered(acts: seq<Action>, id: Id)
    requires ValidRun(NONE, acts) && CleanRun(NONE, acts)
    requires var s := Run(NONE, acts); id in s.place && id !in s.cancelled && id !in s.superseded
    ensures var s := Run(NONE, acts); Count(s, id) == if s.place[id].Out? && id !in s.untold then 1 else 0
  {
    NoneKeeps();
    RunKeeps(NONE, acts);
    hide TurnsOk, QueueOk, Run;
    assert AskOk(Run(NONE, acts), id);
  }
}
