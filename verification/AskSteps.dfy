/** What each step of an ask's way does do: where a send puts it, when a follow-up joins, who is failed, canceled, stranded. */
module AskSteps {
  import opened Common
  import opened AskChain
  import opened AskLines

  /** Only the ask `id` is elsewhere, and its job file may have changed. */
  ghost predicate Elsewhere(s: Thread, d: Thread, id: Id) {
    && (forall x :: x != id ==> (x in d.place <==> x in s.place) && (x in s.place ==> d.place[x] == s.place[x]))
    && (forall x :: x != id ==> (x in d.jobs <==> x in s.jobs) && (x in s.jobs ==> d.jobs[x] == s.jobs[x]))
  }

  /** A prepared ask is sent, a failed one told of, unless its job file is gone; one that took too long is told of by nobody. */
  lemma PreparedIsSent(s: Thread, id: Id)
    requires Enabled(s, Prepared(id))
    ensures var d := Step(s, Prepared(id));
      && Elsewhere(s, d, id) && d.answers == s.answers
      && (id in s.jobs ==> d.place[id] == Place.Sending && id in d.jobs && d.jobs[id] == s.jobs[id].(stage := Sent))
      && (id !in s.jobs ==> d.place[id] == Out && id !in d.jobs)
    ensures var d := Step(s, PrepareFailed(id));
      Elsewhere(s, d, id) && d.place[id] == Out && id !in d.jobs && d.answers == s.answers + if id in s.jobs then multiset{Failure(id)} else multiset{}
    ensures var d := Step(s, PrepareTimedOut(id));
      Elsewhere(s, d, id) && d.place[id] == Out && id !in d.jobs && d.answers == s.answers && d.untold == s.untold + {id}
  {
  }

  /** Whether the ask had a job file decides whether its failure is told. */
  lemma FailureIsTold(s: Thread, id: Id)
    ensures var d := Fail(s, id);
      && d.answers == s.answers + (if id in s.jobs then multiset{Failure(id)} else multiset{})
      && d.failing == s.failing + (if id in s.jobs then {id} else {}) && d == s.(answers := d.answers, failing := d.failing)
  {
    assert s.failing + {} == s.failing && s.answers + multiset{} == s.answers;
  }

  /** A send's ask starts a turn, or is the last of the queue, or is failed. */
  lemma SentAskGoesOn(s: Thread, id: Id, how: Sending)
    requires Enabled(s, SendDone(id, how))
    ensures var d := Step(s, SendDone(id, how));
      && Elsewhere(s, d, id) && d.jobs == s.jobs && d.turns == s.turns
      && (how.AsTurn? ==> d.place[id] == Starting(true) && d.queue == s.queue && d.answers == s.answers)
      && (how.IntoQueue? ==> d.place[id] == Queued && d.queue == s.queue + [id] && d.answers == s.answers)
      && (how.Thrown? ==> d.place[id] == Out && d.queue == s.queue && d.answers == s.answers + if id in s.jobs then multiset{Failure(id)} else multiset{})
  {
  }

  /** The oldest queued ask is started, and a start that got there is the last turn of the map, the ask its prompt. */
  lemma OldestAskStarts(s: Thread, id: Id)
    ensures s.queue != [] ==>
      var d := Step(s, StartNext);
      Elsewhere(s, d, s.queue[0]) && d.place[s.queue[0]] == Starting(false) && d.queue == s.queue[1..] && d.jobs == s.jobs && d.turns == s.turns
    ensures Enabled(s, Start(id)) ==>
      var d := Step(s, Start(id));
      && Elsewhere(s, d, id) && d.place[id] == InTurn(s.started) && d.queue == s.queue && d.jobs == s.jobs && d.started == s.started + 1
      && d.turns == s.turns + [Turn(s.started, [Entry(id, None, 0, Delivered)], [], false, false, false, false)]
  {
  }

  /** A follow-up goes to the first turn that has the ask it follows, or is refused: then it is as if it had never been. */
  lemma FollowUpFindsItsTurn(s: Thread, id: Id)
    requires Enabled(s, SteerFind(id))
    ensures var d, prev := Step(s, SteerFind(id)), s.place[id].prev;
      && Elsewhere(s, d, id) && d.turns == s.turns && d.queue == s.queue && d.answers == s.answers
      && (id in d.place ==> d.place[id].Joining? && d.place[id].prev == prev && exists i :: 0 <= i < |s.turns| && s.turns[i].number == d.place[id].number && prev in Ids(s.turns[i].chain))
      && (id !in d.place <==> forall i :: 0 <= i < |s.turns| ==> prev !in Ids(s.turns[i].chain))
      && (id !in d.place ==> id !in d.jobs && id !in d.cancelled)
  {
    hide Ids;
    var prev := s.place[id].prev;
    var at := FindTurn(s.turns, prev);
    if at.Some? { assert Holds(s.turns[at.value], prev); }
    assert forall i :: 0 <= i < |s.turns| ==> (Holds(s.turns[i], prev) <==> prev in Ids(s.turns[i].chain));
    hide FindTurn;
  }

  /** The turn still has the ask last, runs, was not stopped, has not told its end, and takes input. */
  ghost predicate JoinsAt(s: Thread, id: Id, open: bool, i: nat)
    requires id in s.place && s.place[id].Joining?
  {
    && i < |s.turns| && s.turns[i].number == s.place[id].number && (forall j :: 0 <= j < i ==> s.turns[j].number != s.place[id].number)
    && var t := s.turns[i];
       open && !t.ended && !t.stopped && !t.reported && t.chain != [] && t.chain[|t.chain| - 1].id == s.place[id].prev
  }

  /** It joins exactly then, last in the chain with its own text and file; else it is refused. */
  lemma FollowUpJoinsIff(s: Thread, id: Id, text: string, open: bool, name: nat)
    requires Enabled(s, SteerDecide(id, text, open, name)) && forall i, j :: 0 <= i < j < |s.turns| ==> s.turns[i].number != s.turns[j].number
    ensures var d, prev := Step(s, SteerDecide(id, text, open, name)), s.place[id].prev;
      && Elsewhere(s, d, id) && d.queue == s.queue && d.answers == s.answers
      && ((id in d.place && d.place[id].InTurn?) <==> exists i: nat :: JoinsAt(s, id, open, i))
      && (id !in d.place || d.place[id] == InTurn(s.place[id].number))
      && (forall i: nat :: JoinsAt(s, id, open, i) ==>
            && d.turns == s.turns[i := s.turns[i].(chain := s.turns[i].chain + [Entry(id, Some(text), name, Waiting)])]
            && d.marks == s.marks[id := prev] && d.follows == s.follows[id := prev] && d.superseded == s.superseded + {prev} && d.jobs == s.jobs)
      && (id !in d.place ==> id !in d.jobs && d.turns == s.turns && d.marks == s.marks && d.superseded == s.superseded)
  {
    var at := TurnNumbered(s.turns, s.place[id].number);
    if at.Some? && open && Takes(s.turns[at.value], s.place[id].prev) {
      assert JoinsAt(s, id, open, at.value);
    }
    if i: nat :| JoinsAt(s, id, open, i) {
      assert s.turns[i].number == s.place[id].number;
      assert at.Some? && at.value == i;
    }
  }

  /** The ask it joined is then superseded in its job file, if that is still there. */
  lemma JoinedIsMarked(s: Thread, id: Id)
    requires Enabled(s, Mark(id))
    ensures var d, prev := Step(s, Mark(id)), s.marks[id];
      && id !in d.marks && d == s.(marks := d.marks, jobs := d.jobs) && d.jobs.Keys == s.jobs.Keys
      && (prev in s.jobs ==> d.jobs[prev] == s.jobs[prev].(stage := Superseded))
      && forall x :: x in s.jobs && x != prev ==> d.jobs[x] == s.jobs[x]
  {
  }

  /** A canceled ask's job goes, unless a later ask answers it or it is being told: then nothing reports it. */
  lemma CancelTakesTheJobIff(s: Thread, id: Id)
    ensures var d := CancelStep(s, id);
      && (id in d.jobs <==> id in s.jobs && (s.jobs[id].stage.Superseded? || s.jobs[id].stage.Reporting?))
      && (d == s || (id in s.jobs && d == s.(jobs := s.jobs - {id}, cancelled := s.cancelled + {id})))
      && (id in d.jobs || id !in s.jobs ==> d == s)
  {
  }

  /** A cancel stops the first turn that has the ask if it runs and the ask is its last, and its end is then not told; a queued ask goes. */
  lemma CancelStopsItsTurn(s: Thread, id: Id, i: nat)
    requires i < |s.turns| && id in Ids(s.turns[i].chain) && forall j :: 0 <= j < i ==> id !in Ids(s.turns[j].chain)
    ensures var d, t := CancelAskStep(s, id), s.turns[i];
      if !t.ended && t.chain[|t.chain| - 1].id == id then d == s.(turns := s.turns[i := t.(stopped := true, reported := true)]) else d == s
  {
    assert Holds(s.turns[i], id) && forall j :: 0 <= j < i ==> !Holds(s.turns[j], id);
    hide Ids;
    FirstHolder(s.turns, id, i);
    hide FindTurn;
  }

  lemma {:induction false} FirstHolder(turns: seq<Turn>, id: Id, i: nat)
    requires i < |turns| && Holds(turns[i], id) && forall j :: 0 <= j < i ==> !Holds(turns[j], id)
    ensures FindTurn(turns, id) == Some(i)
  {
    hide Ids;
    if i > 0 { FirstHolder(turns[1..], id, i - 1); }
  }

  lemma CancelLeavesTheQueue(s: Thread, id: Id)
    requires forall i :: 0 <= i < |s.turns| ==> id !in Ids(s.turns[i].chain)
    ensures var d := CancelAskStep(s, id);
      && id !in d.queue && (forall x :: x in d.queue <==> x in s.queue && x != id) && d.turns == s.turns && d.jobs == s.jobs
      && (id in s.queue ==> d.place == s.place[id := Out]) && (id !in s.queue ==> d == s)
  {
    assert forall i :: 0 <= i < |s.turns| ==> !Holds(s.turns[i], id);
    hide Ids, FindTurn;
    assert FindTurn(s.turns, id).None?;
  }

  /** A stop fails every queued and every unread ask that still has its job file, each told once more. */
  lemma {:induction false} FailAllTells(s: Thread, ids: seq<Id>)
    ensures forall id :: FailAll(s, ids).answers[Failure(id)] == s.answers[Failure(id)] + if id in s.jobs then multiset(ids)[id] else 0
    ensures forall id :: FailAll(s, ids).answers[Report(id)] == s.answers[Report(id)]
    decreases |ids|
  {
    if ids == [] {
      assert multiset(ids) == multiset{};
    } else {
      FailAllTells(Fail(s, ids[0]), ids[1..]);
      assert ids == [ids[0]] + ids[1..];
      assert multiset(ids) == multiset{ids[0]} + multiset(ids[1..]);
    }
  }

  lemma StopFailsAll(s: Thread, late: set<nat>, left: seq<nat>)
    ensures var d, ids := DropStep(s, late, left), s.queue + if s.turns == [] then [] else WaitingIds(s.turns[0].chain);
      && d.queue == [] && (forall id :: id in ids ==> id in d.place && d.place[id] == Out) && d.jobs == s.jobs
      && (forall id :: d.answers[Failure(id)] == s.answers[Failure(id)] + if id in s.jobs then multiset(ids)[id] else 0)
      && (forall id :: d.answers[Report(id)] == s.answers[Report(id)])
      && (s.turns != [] ==> forall k :: 0 <= k < |s.turns[0].chain| ==> !d.turns[0].chain[k].file.Waiting?)
      && (forall i :: 1 <= i < |s.turns| ==> d.turns[i] == s.turns[i])
  {
    var ids := s.queue + if s.turns == [] then [] else WaitingIds(s.turns[0].chain);
    FailAllTells(s, ids);
    FailAllOnlyTells(s, ids);
    hide FailAll, WaitingIds;
  }

  /** What the next agent does with a job file it finds: begins again, leaves it to a turn or the queue, or fails it as lost. */
  lemma ReconcileDoes(s: Thread, id: Id)
    requires id in s.jobs && !InFlight(s, id)
    ensures var d := ReconcileStep(s, id);
      && (s.jobs[id].stage.Preparing? ==> d == s.(place := s.place[id := Fetching]))
      && (s.jobs[id].stage.Superseded? || s.jobs[id].stage.Reporting? ==> d == s)
      && (s.jobs[id].stage.Sent? ==>
            if id in s.queue || exists i :: 0 <= i < |s.turns| && id in Ids(s.turns[i].chain) then d == s
            else d.answers == s.answers + multiset{Failure(id)} && id in d.failing && (id in s.place && s.place[id].Stranded? ==> d.place[id] == Out))
  {
    hide Ids;
    if i :| 0 <= i < |s.turns| && id in Ids(s.turns[i].chain) {
      assert Holds(s.turns[i], id);
    }
    if FindTurn(s.turns, id).Some? { assert Holds(s.turns[FindTurn(s.turns, id).value], id); }
    hide FindTurn;
  }

  /** A death strands what was on its way, and leaves the queue, the job files, the turns and their inboxes. */
  lemma DeathStrands(s: Thread, died: set<nat>)
    ensures var d := Restarted(s, died);
      && d.queue == s.queue && d.jobs == s.jobs && d.answers == s.answers && d.marks == map[] && |d.turns| == |s.turns| && d.place.Keys == s.place.Keys
      && (forall id :: id in s.place ==> d.place[id] == if s.place[id].Queued? || s.place[id].InTurn? || s.place[id].Out? then s.place[id] else Stranded)
      && forall i :: 0 <= i < |s.turns| ==>
           var t := s.turns[i]; d.turns[i] == Turn(t.number, t.chain, t.listed, t.ended || t.number in died, false, false, false)
  {
  }
}
