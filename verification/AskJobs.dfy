/** The ask job files as `ask-chat.js` moves them, in place; each method against its step of the thread. */
module AskJobs {
  import opened Common
  import opened AskChain
  import AskResult

  /** The result told to ask `id` is the newest ask's of the chain, which Claude was given, and fits that ask's own text. */
  ghost predicate ToldItsOwn(chain: seq<Entry>, log: seq<AskResult.Event>, id: Id, r: AskResult.Answer) {
    && chain != [] && chain[|chain| - 1].id == id && chain[|chain| - 1].file.Delivered?
    && AskResult.Fits(log, chain[|chain| - 1].text, r)
  }

  lemma TargetToldItsOwn(chain: seq<Entry>, log: seq<AskResult.Event>, r: AskResult.Answer)
    requires chain != [] && chain[0].text.None? && chain[0].file.Delivered? && TurnTarget(chain).report && AskResult.Fits(log, TurnTarget(chain).after, r)
    ensures ToldItsOwn(chain, log, TurnTarget(chain).id, r)
  {
    TargetFound(chain);
  }

  lemma {:induction false} FailuresAreNoReports(s: Thread, ids: seq<Id>)
    ensures forall id :: FailAll(s, ids).answers[Report(id)] == s.answers[Report(id)]
    decreases |ids|
  {
    if ids != [] { FailuresAreNoReports(AskChain.Fail(s, ids[0]), ids[1..]); }
  }

  /** The jobs directory with its result files, the reporting scripts running, and what the askers were told. */
  class JobFiles {
    var jobs: map<Id, JobFile>
    var failing: set<Id>
    var answers: multiset<Answer>
    var results: map<Id, AskResult.Answer>

    /** The files are the thread's. */
    ghost predicate Of(s: Thread)
      reads this
    {
      jobs == s.jobs && failing == s.failing && answers == s.answers
    }

    constructor ()
      ensures Of(NONE)
    {
      jobs, failing, answers, results := map[], {}, multiset{}, map[];
    }

    method Fail(id: Id, ghost s: Thread)
      requires Of(s)
      modifies this`failing, this`answers
      ensures Of(AskChain.Fail(s, id))
    {
      if id !in jobs { return; }
      failing, answers := failing + {id}, answers + multiset{Failure(id)};
    }

    /**
     * The superseded asks' files go, the lost ones are failed, and the target is reported if it is still to be,
     * with what the turn's log holds for it.
     */
    method OnTurnDone(head: Id, steered: seq<Entry>, log: seq<AskResult.Event>, ghost s: Thread)
      requires Of(s)
      modifies this
      ensures Of(TurnDone(s, [Entry(head, None, 0, Delivered)] + steered))
      ensures forall id :: answers[Report(id)] > old(answers[Report(id)]) ==>
        id in results && ToldItsOwn([Entry(head, None, 0, Delivered)] + steered, log, id, results[id])
      ensures forall id :: answers[Report(id)] == old(answers[Report(id)]) && id in old(results) ==> id in results && results[id] == old(results)[id]
    {
      ghost var chain := [Entry(head, None, 0, Delivered)] + steered;
      var t := FindTarget(head, steered);
      hide LastDelivered, WaitingIds, Ids, TurnTarget, ToldItsOwn, AskResult.Fits, IsTarget;
      RemoveSuperseded(t.superseded);
      ghost var s0 := s.(jobs := jobs);
      FailEach(t.lost, s0);
      FailuresAreNoReports(s0, t.lost);
      Answer(t, log, FailAll(s0, t.lost));
      if answers[Report(t.id)] > old(answers[Report(t.id)]) { TargetToldItsOwn(chain, log, results[t.id]); }
    }

    method RemoveSuperseded(ids: seq<Id>)
      modifies this`jobs
      ensures jobs == old(jobs) - Unreported(old(jobs), ids)
    {
      var i := 0;
      while i < |ids|
        invariant 0 <= i <= |ids|
        invariant jobs == old(jobs) - Unreported(old(jobs), ids[..i])
      {
        var id := ids[i];
        UnreportedGrows(old(jobs), ids, i);
        if id in jobs && !jobs[id].stage.Reporting? { jobs := jobs - {id}; }
        i := i + 1;
      }
      assert ids[..i] == ids;
    }

    method FailEach(lost: seq<Id>, ghost s: Thread)
      requires Of(s)
      modifies this`failing, this`answers
      ensures Of(FailAll(s, lost))
    {
      ghost var now := s;
      var i := 0;
      while i < |lost|
        invariant 0 <= i <= |lost| && Of(now)
        invariant FailAll(now, lost[i..]) == FailAll(s, lost)
      {
        Fail(lost[i], now);
        now := AskChain.Fail(now, lost[i]);
        i := i + 1;
      }
    }

    /** A target to report is told what `turnResult` makes of the log for it; no other result changes. */
    method Answer(t: Target, log: seq<AskResult.Event>, ghost s: Thread)
      requires Of(s)
      modifies this
      ensures Of(Reply(s, t))
      ensures if answers == s.answers then results == old(results)
        else t.report && answers == s.answers + multiset{Report(t.id)} && t.id in results && AskResult.Fits(log, t.after, results[t.id])
             && results == old(results)[t.id := results[t.id]]
    {
      if t.id !in jobs || jobs[t.id].stage.Reporting? { return; }
      if !t.report || jobs[t.id].stage.Superseded? {
        jobs := jobs - {t.id};
        return;
      }
      var r := AskResult.TurnResult(log, t.after);
      results := results[t.id := r];
      jobs := jobs[t.id := jobs[t.id].(stage := Reporting)];
      answers := answers + multiset{Report(t.id)};
    }

    /** The file of the ask a follow-up joined, if it is still there. */
    method MarkSuperseded(id: Id, prev: Id, ghost s: Thread)
      requires Of(s) && id in s.marks && s.marks[id] == prev
      modifies this`jobs
      ensures Of(MarkStep(s, id))
    {
      if prev in jobs { jobs := jobs[prev := jobs[prev].(stage := Superseded)]; }
    }

    method Cancel(id: Id, ghost s: Thread) returns (took: bool)
      requires Of(s)
      modifies this`jobs
      ensures Of(CancelStep(s, id))
      ensures took <==> CancelStep(s, id).jobs != s.jobs
    {
      if id !in jobs || jobs[id].stage.Superseded? || jobs[id].stage.Reporting? { return false; }
      jobs := jobs - {id};
      return true;
    }

    /** After a canceled ask, the tombstones of the asks it had superseded in that turn. */
    method RemoveTombstones(steerOf: Option<Id>)
      modifies this`jobs
      ensures jobs == Buried(old(jobs), steerOf, 100)
    {
      var prev, n := steerOf, 0;
      while prev.Some? && n < 100
        invariant 0 <= n <= 100
        invariant Buried(jobs, prev, 100 - n) == Buried(old(jobs), steerOf, 100)
        decreases 100 - n
      {
        if prev.value !in jobs || !jobs[prev.value].stage.Superseded? { return; }
        var job := jobs[prev.value];
        jobs := jobs - {prev.value};
        prev := job.steerOf;
        n := n + 1;
      }
    }
  }

  function Unreported(jobs: map<Id, JobFile>, ids: seq<Id>): set<Id> {
    set id | id in ids && id in jobs && !jobs[id].stage.Reporting?
  }

  lemma UnreportedGrows(jobs: map<Id, JobFile>, ids: seq<Id>, i: nat)
    requires i < |ids|
    ensures var more := Unreported(jobs, ids[..i + 1]);
      more == Unreported(jobs, ids[..i]) + (if ids[i] in jobs && !jobs[ids[i]].stage.Reporting? then {ids[i]} else {})
  {
    assert ids[..i + 1] == ids[..i] + [ids[i]];
  }
}
