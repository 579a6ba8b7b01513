/** The runner's own code over one chat: each method is a stretch without an await, proved to be its step. */
module RunnerProcess {
  import opened Common
  import opened PaneClaim
  import opened ChatRunner
  import opened ChatProgress

  class ChatProcess {
    var accepted: seq<Job>
    var handed: seq<Job>
    var start: Start
    var active: seq<Turn>
    var queue: seq<Job>
    var resumeHold: bool
    var pane: Pane
    var parked: bool
    var clearing: bool
    var dropped: seq<Job>
    var lost: seq<Job>

    ghost function State(): Chat
      reads this
    {
      Chat(accepted, handed, start, active, queue, resumeHold, pane, parked, clearing, dropped, lost)
    }

    constructor ()
      ensures State() == EMPTY
    {
      accepted, handed, start, active, queue := [], [], Idle, [], [];
      resumeHold, pane, parked, clearing, dropped, lost := false, Free, false, false, [], [];
    }

    /** `startTurn` up to its first await. */
    method BeginTurn(job: Job)
      modifies this`start
      ensures start == Preparing(job)
    {
      start := Preparing(job);
    }

    /** `startTurn` from there: the prompt is on disk, the turn in the map. */
    method PutTurn()
      requires start.Preparing?
      modifies this`start, this`handed, this`active
      ensures State() == PreparedStep(old(State()))
    {
      var job := start.job;
      handed := handed + [job];
      active := active + [Turn(job, false, false, false, false, false, [])];
      start := Launching(job);
    }

    /** `startTurn`'s end: a process that could not be created leaves a turn that is over. */
    method EndStart(ok: bool)
      requires start.Launching?
      modifies this`start, this`active
      ensures State() == LaunchedStep(old(State()), ok)
    {
      if !ok {
        var turns := active;
        var i := 0;
        while i < |turns|
          invariant 0 <= i <= |turns| == |active| && start == old(start)
          invariant forall k :: 0 <= k < i ==> turns[k] == if active[k].job == start.job then active[k].(exit := true) else active[k]
          invariant forall k :: i <= k < |turns| ==> turns[k] == active[k]
        {
          if turns[i].job == start.job {
            turns := turns[i := turns[i].(exit := true)];
          }
          i := i + 1;
        }
        active := turns;
      }
      start := Idle;
    }

    /** `startNext`. */
    method StartNextJob()
      modifies this`queue, this`start
      ensures State() == StartNext(old(State()))
      ensures OldestStarts(State(), old(start), old(queue), IsFree(old(State())))
    {
      if active != [] || start != Idle || resumeHold || pane != Free || parked || clearing {
        return;
      }
      if queue == [] {
        return;
      }
      var job := queue[0];
      queue := queue[1..];
      BeginTurn(job);
    }

    /** The running turn is the backend's again, not one only found on disk. */
    method ClearRecovered()
      modifies this`active
      ensures State() == MarkKnown(old(State()))
    {
      if active != [] {
        active := active[0 := active[0].(recovered := false)];
      }
    }

    /** `resumeQueue`. */
    method Resume()
      modifies this`parked, this`active, this`queue, this`start
      ensures State() == Unpark(old(State()))
      ensures OldestStarts(State(), old(start), old(queue), IsFree(old(State()).(parked := false)))
    {
      if pane != Free {
        return;
      }
      parked := false;
      ClearRecovered();
      StartNextJob();
    }

    /** The last stretch of `sendMessage`: into the live turn, behind the queue, or a turn of its own. */
    method SendMessage(person: bool, live: bool, fits: bool) returns (place: Place)
      modifies this
      ensures place == SendPlace(old(State()), live, fits)
      ensures State() == SendStep(old(State()), person, live, fits)
    {
      hide Unpark;
      var job := Job(|accepted|, person, false, live);
      if live && fits && active != [] && queue == [] && !resumeHold && start == Idle && pane == Free && ReadsInput(active[0]) && !active[0].cancelled {
        if |active[0].inbox| >= MAX_QUEUE {
          return Refused;
        }
        accepted := accepted + [job];
        active := active[0 := active[0].(inbox := active[0].inbox + [job], recovered := false)];
        return IntoTurn;
      }
      if pane != Free || active != [] || start != Idle || resumeHold || queue != [] {
        if |queue| >= MAX_QUEUE {
          return Refused;
        }
        accepted := accepted + [job];
        queue := queue + [job];
        Resume();
        return IntoQueue;
      }
      accepted := accepted + [job];
      BeginTurn(job);
      return AsTurn;
    }

    method CompactChat() returns (taken: bool)
      modifies this`accepted, this`start
      ensures State() == CompactStep(old(State())) && taken == CompactTaken(old(State()))
    {
      if start != Idle || (active != [] && !active[0].exit) || queue != [] || resumeHold || pane != Free {
        return false;
      }
      var job := Job(|accepted|, false, true, false);
      accepted := accepted + [job];
      BeginTurn(job);
      return true;
    }

    /** `drainInbox` of the turn the map names first. */
    method DrainFirst() returns (jobs: seq<Job>)
      modifies this`active
      ensures jobs == if old(active) == [] then [] else old(active)[0].inbox
      ensures active == if old(active) == [] then [] else old(active)[0 := old(active)[0].(inbox := [])]
    {
      jobs := [];
      if active != [] {
        jobs := active[0].inbox;
        active := active[0 := active[0].(inbox := [])];
      }
    }

    method InterruptChat() returns (texts: seq<Job>)
      modifies this`active, this`dropped, this`queue, this`parked
      ensures State() == InterruptStep(old(State()))
      ensures dropped == old(dropped) + texts
    {
      var running := active != [] && !active[0].exit;
      if pane != Free && !running {
        return [];
      }
      var unread := DrainFirst();
      texts := unread + queue;
      dropped := dropped + texts;
      assert dropped == old(dropped) + unread + queue;
      if !running {
        if texts != [] {
          queue := [];
          parked := false;
        }
        return;
      }
      queue := [];
      parked := false;
    }

    method BeginClear()
      modifies this`active, this`dropped, this`queue, this`parked, this`clearing, this`resumeHold, this`pane
      ensures State() == ClearStep(old(State()))
    {
      clearing := true;
      resumeHold := false;
      var unread := DrainFirst();
      dropped := dropped + queue + unread;
      queue := [];
      parked := false;
      pane := Free;
    }

    method Claim() returns (claimed: bool)
      modifies this`resumeHold, this`pane
      ensures State() == ClaimStep(old(State())) && claimed == ClaimTaken(old(State()))
    {
      if start != Idle || (active != [] && !active[0].exit) {
        return false;
      }
      if pane == Owns {
        return false;
      }
      resumeHold := true;
      pane := Owns;
      return true;
    }

    method Release(seen: bool, park: bool)
      modifies this`resumeHold, this`pane, this`parked
      ensures State() == ReleaseStep(old(State()), seen, park)
    {
      resumeHold := false;
      if seen && pane != Free {
        pane := Seen;
      } else if !park && pane == Owns {
        pane := Free;
      }
      if park && queue != [] {
        parked := true;
      }
    }

    /** A sweep up to its await: the unread inbox goes ahead of the queue, unless the turn was stopped. */
    method SweepDrain(i: nat)
      requires i < |active| && active[i].exit && !active[i].drained
      modifies this`active, this`queue
      ensures State() == DrainStep(old(State()), i)
    {
      var t := active[i];
      var left := if t.cancelled then [] else t.inbox;
      if left != [] {
        queue := left + queue;
      }
      active := active[i := if t.cancelled then t.(drained := true) else t.(drained := true, inbox := [])];
      assert [] + old(queue) == old(queue);
    }

    /** And past it: `done`, out of the map, parked if nobody vouched for the queue, else the next job. */
    method SweepDone(i: nat)
      requires i < |active| && active[i].drained
      modifies this`active, this`dropped, this`parked, this`queue, this`start
      ensures State() == StartNext(Removed(old(State()), i))
      ensures OldestStarts(State(), old(start), old(queue), IsFree(old(State()).(active := active, parked := parked)))
    {
      var t := active[i];
      dropped := dropped + t.inbox;
      active := Without(active, i);
      if t.recovered && queue != [] {
        parked := true;
      }
      StartNextJob();
    }

    method SteerAsk(i: nat) returns (steered: bool)
      requires i < |active|
      modifies this`accepted, this`active
      ensures State() == SteerStep(old(State()), i) && steered == SteerTaken(old(State()), i)
    {
      var t := active[i];
      if t.exit || t.cancelled || clearing || start == Launching(t.job) || !t.job.live || t.stdinEnded || |t.inbox| >= MAX_QUEUE {
        return false;
      }
      var job := Job(|accepted|, false, false, true);
      accepted := accepted + [job];
      active := active[i := t.(inbox := t.inbox + [job], recovered := false)];
      return true;
    }
  }
}
