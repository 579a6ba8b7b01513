/** What a drop, a reused number or a crash can do around a steer or a turn's end: runs that show it. */
module AskRaces {
  import opened Common
  import opened AskChain
  import opened AskAnswers

  lemma {:induction false} Extended(s: Thread, acts: seq<Action>, a: Action)
    requires ValidRun(s, acts) && Enabled(Run(s, acts), a)
    ensures ValidRun(s, acts + [a]) && Run(s, acts + [a]) == Step(Run(s, acts), a)
    decreases |acts|
  {
    hide Step, Enabled;
    if acts == [] {
      assert (acts + [a])[1..] == [];
    } else {
      assert (acts + [a])[1..] == acts[1..] + [a];
      Extended(Step(s, acts[0]), acts[1..], a);
    }
  }

  const FIRST: Entry := Entry(1, None, 0, Delivered)

  /** A turn of these asks that runs, its inbox not listed. */
  function Running(chain: seq<Entry>, listed: seq<nat>): Turn {
    Turn(0, chain, listed, false, false, false, false)
  }

  function Ended(chain: seq<Entry>, stopped: bool): Turn {
    Turn(0, chain, [], true, stopped, false, false)
  }

  lemma One() returns (acts: seq<Action>)
    ensures ValidRun(NONE, acts)
    ensures Run(NONE, acts) == Thread(map[1 := JobFile(Sent, None)], map[1 := InTurn(0)], [], [Running([FIRST], [])],
                                      1, map[], {}, multiset{}, map[], {}, {}, {}, {})
  {
    acts := [];
    Extended(NONE, acts, Ask(1));
    acts := acts + [Ask(1)];
    Extended(NONE, acts, Prepared(1));
    acts := acts + [Prepared(1)];
    Extended(NONE, acts, SendDone(1, AsTurn));
    acts := acts + [SendDone(1, AsTurn)];
    assert Run(NONE, acts) == Thread(map[1 := JobFile(Sent, None)], map[1 := Starting(true)], [], [], 0, map[], {}, multiset{}, map[], {}, {}, {}, {});
    Extended(NONE, acts, Start(1));
    acts := acts + [Start(1)];
    hide Run, ValidRun;
  }

  // ---- A steer, from its first step to its mark ----

  /** The turn 0 answers `prev`, whose job file is there, and would take ask `id` under number `name`. */
  ghost predicate Open(s: Thread, id: Id, prev: Id, name: nat) {
    && |s.turns| == 1 && s.turns[0].number == 0 && s.turns[0].chain != []
    && Takes(s.turns[0], prev) && MayBegin(s, id, prev) && IsNext(name, Names(s.turns[0].chain))
  }

  /** The thread with ask `id` taken behind `prev`, and not yet marked. */
  function Steered(s: Thread, id: Id, prev: Id, name: nat): Thread
    requires |s.turns| == 1
  {
    s.(jobs := s.jobs[id := JobFile(Sent, Some(prev))], place := s.place[id := InTurn(0)],
       turns := [s.turns[0].(chain := s.turns[0].chain + [Entry(id, Some(""), name, Waiting)])],
       marks := s.marks[id := prev], follows := s.follows[id := prev], superseded := s.superseded + {prev})
  }

  lemma Steer(acts0: seq<Action>, id: Id, prev: Id, name: nat) returns (acts: seq<Action>)
    requires ValidRun(NONE, acts0) && Open(Run(NONE, acts0), id, prev, name)
    ensures ValidRun(NONE, acts) && Run(NONE, acts) == Steered(Run(NONE, acts0), id, prev, name)
  {
    hide Run, ValidRun, IsNext, Names;
    var s := Run(NONE, acts0);
    Extended(NONE, acts0, SteerBegin(id, prev));
    acts := acts0 + [SteerBegin(id, prev)];
    var last := |s.turns[0].chain| - 1;
    assert Holds(s.turns[0], prev) by { assert Ids(s.turns[0].chain)[last] == prev; }
    Extended(NONE, acts, SteerFind(id));
    acts := acts + [SteerFind(id)];
    var f := Run(NONE, acts);
    assert f.place == s.place[id := Joining(prev, 0)] && f.turns == s.turns;
    Extended(NONE, acts, SteerDecide(id, "", true, name));
    acts := acts + [SteerDecide(id, "", true, name)];
    assert f.turns[0 := f.turns[0].(chain := f.turns[0].chain + [Entry(id, Some(""), name, Waiting)])]
        == [f.turns[0].(chain := f.turns[0].chain + [Entry(id, Some(""), name, Waiting)])];
  }

  function MarkedFrom(s: Thread, id: Id, prev: Id): Thread {
    s.(marks := s.marks - {id}, jobs := if prev in s.jobs then s.jobs[prev := s.jobs[prev].(stage := Superseded)] else s.jobs)
  }

  lemma SteerAndMark(acts0: seq<Action>, id: Id, prev: Id, name: nat) returns (acts: seq<Action>)
    requires ValidRun(NONE, acts0) && Open(Run(NONE, acts0), id, prev, name)
    ensures ValidRun(NONE, acts) && Run(NONE, acts) == MarkedFrom(Steered(Run(NONE, acts0), id, prev, name), id, prev)
  {
    acts := Steer(acts0, id, prev, name);
    hide Run, ValidRun;
    Extended(NONE, acts, Mark(id));
    acts := acts + [Mark(id)];
  }

  lemma NextIs(chain: seq<Entry>, names: set<nat>, name: nat)
    requires Names(chain) == names && name >= 1 && name - 1 in names && forall n :: n in names ==> n < name
    ensures IsNext(name, Names(chain))
  {
  }

  const SECOND: Entry := Entry(2, Some(""), 1, Waiting)

  /** Ask 1 runs, and ask 2 has joined its turn: taken, not yet marked. */
  lemma Two() returns (acts: seq<Action>)
    ensures ValidRun(NONE, acts)
    ensures Run(NONE, acts) == Thread(
      map[1 := JobFile(Sent, None), 2 := JobFile(Sent, Some(1))], map[1 := InTurn(0), 2 := InTurn(0)], [],
      [Running([FIRST, SECOND], [])], 1, map[2 := 1], {}, multiset{}, map[2 := 1], {1}, {}, {}, {})
  {
    acts := One();
    hide Run, ValidRun;
    assert FIRST in [FIRST];
    NextIs([FIRST], {0}, 1);
    acts := Steer(acts, 2, 1, 1);
    assert [FIRST] + [SECOND] == [FIRST, SECOND];
  }

  lemma TwoMarked() returns (acts: seq<Action>)
    ensures ValidRun(NONE, acts)
    ensures Run(NONE, acts) == Thread(
      map[1 := JobFile(Superseded, None), 2 := JobFile(Sent, Some(1))], map[1 := InTurn(0), 2 := InTurn(0)], [],
      [Running([FIRST, SECOND], [])], 1, map[], {}, multiset{}, map[2 := 1], {1}, {}, {}, {})
  {
    acts := Two();
    hide Run, ValidRun;
    Extended(NONE, acts, Mark(2));
    acts := acts + [Mark(2)];
  }

  // ---- What a turn's end finds ----

  /** With a number for each ask, each is found as it is. */
  lemma LookIsChain(chain: seq<Entry>)
    requires forall j, k :: 0 <= j < k < |chain| ==> chain[j].name != chain[k].name
    ensures Look(chain) == chain
  {
    forall k | 0 <= k < |chain|
      ensures Look(chain)[k] == chain[k]
    {
      assert chain[k] in chain;
      forall e | e in chain && e.name == chain[k].name
        ensures e == chain[k]
      {
        var j :| 0 <= j < |chain| && chain[j] == e;
      }
    }
  }

  lemma {:induction false} OnlyFirst(chain: seq<Entry>)
    requires chain != [] && chain[0].file.Delivered? && forall k :: 1 <= k < |chain| ==> !chain[k].file.Delivered?
    ensures LastDelivered(chain) == 0
  {
    if |chain| > 1 { OnlyFirst(chain[..|chain| - 1]); }
  }

  lemma WaitingOne(e: Entry)
    ensures WaitingIds([e]) == if e.file.Waiting? then [e.id] else []
    ensures WaitingIds([]) == []
  {
    assert [e][..0] == [];
  }

  lemma WaitingTwo(e: Entry, f: Entry)
    ensures WaitingIds([e, f]) == WaitingIds([e]) + WaitingIds([f])
  {
    WaitingOne(e);
    WaitingOne(f);
    assert [e, f][..1] == [e];
  }

  /** The target of a chain of two, the second not delivered. */
  lemma EndsTwo(second: Entry)
    requires second.id == 2 && second.name == 1 && !second.file.Delivered?
    ensures TurnTarget([FIRST, second]) == Target(1, None, [], false, if second.file.Waiting? then [2] else [])
    ensures WaitingIds([FIRST, second]) == if second.file.Waiting? then [2] else []
    ensures Look([FIRST, second]) == [FIRST, second]
  {
    var chain := [FIRST, second];
    LookIsChain(chain);
    OnlyFirst(chain);
    WaitingOne(FIRST);
    WaitingOne(second);
    WaitingTwo(FIRST, second);
    assert chain[..0] == [] && chain[0 + 1..] == [second];
    assert Ids(chain[..0]) == [];
  }

  /** A sweep with nothing to carry: the turn's end is told of a thread whose job files are as they were. */
  lemma SweepTells(s: Thread, number: nat, chain: seq<Entry>, stopped: bool) returns (e: Thread)
    requires s.turns == [Turn(number, chain, [], true, stopped, false, false)] && chain != [] && chain[0].file.Delivered?
    requires stopped || forall k :: 0 <= k < |chain| ==> !chain[k].file.Waiting?
    ensures e.jobs == s.jobs && e.answers == s.answers && e.failing == s.failing && e.queue == s.queue && e.superseded == s.superseded
    ensures e.turns == [Turn(number, chain, [], true, stopped, true, true)]
    ensures Look(chain)[0].file.Delivered? && SweepStep(s, 0) == TurnDone(e, Look(chain))
  {
    e := TurnOver(s, 0);
    HeadIsSeen(chain);
    if !stopped { NothingWaits(chain); }
    hide WaitingIds, Look, TurnDone;
    assert [] + s.queue == s.queue;
  }

  // ---- A drop after a told end ----

  lemma Told(s: Thread)
    requires s.turns == [Ended([FIRST, SECOND], true)] && 2 in s.jobs && s.answers[Failure(2)] == 0
    ensures var r := SweepStep(s, 0);
      r.answers[Failure(2)] == 1 && r.answers[Report(2)] == s.answers[Report(2)] && 2 in r.jobs && r.jobs[2] == s.jobs[2] && r.queue == s.queue
      && r.turns == [Turn(0, [FIRST, SECOND], [], true, true, true, true)]
  {
    hide SweepStep;
    var e := SweepTells(s, 0, [FIRST, SECOND], true);
    EndsTwo(SECOND);
    hide Look, TurnTarget;
    FailsOne(e);
    hide FailAll;
    assert e.jobs - {} == e.jobs;
  }

  lemma FailsOne(e: Thread)
    requires 2 in e.jobs
    ensures FailAll(e, [2]) == Fail(e, 2)
  {
    assert [2][1..] == [];
  }

  lemma ToldAgain(s: Thread)
    requires s.turns == [Turn(0, [FIRST, SECOND], [], true, true, true, true)] && 2 in s.jobs && s.queue == []
    ensures DropStep(s, {}, []).answers[Failure(2)] == s.answers[Failure(2)] + 1
  {
    EndsTwo(SECOND);
    hide LastDelivered, WaitingIds;
    assert [] + [2] == [2];
    assert FailAll(s, [2]).answers[Failure(2)] == s.answers[Failure(2)] + 1;
  }

  lemma StoppedAndEnded(acts0: seq<Action>, chain: seq<Entry>) returns (acts: seq<Action>)
    requires ValidRun(NONE, acts0) && Run(NONE, acts0).turns == [Running(chain, [])]
    ensures ValidRun(NONE, acts) && Run(NONE, acts) == Run(NONE, acts0).(turns := [Ended(chain, true)])
  {
    hide Run, ValidRun;
    Extended(NONE, acts0, Stop(0));
    acts := acts0 + [Stop(0)];
    assert Run(NONE, acts).turns == [Turn(0, chain, [], false, true, false, false)];
    Extended(NONE, acts, Exit(0));
    acts := acts + [Exit(0)];
    assert Run(NONE, acts).turns == [Ended(chain, true)];
  }

  /** Cleared between a stopped turn's end and its leaving the map: the lost follow-up's asker is told twice. */
  lemma DropMidSweepFailsTwice() returns (acts: seq<Action>)
    ensures ValidRun(NONE, acts) && Run(NONE, acts).answers[Failure(2)] == 2
  {
    acts := Two();
    hide Run, ValidRun, SweepStep, DropStep;
    acts := StoppedAndEnded(acts, [FIRST, SECOND]);
    Told(Run(NONE, acts));
    Extended(NONE, acts, Sweep(0));
    acts := acts + [Sweep(0)];
    ToldAgain(Run(NONE, acts));
    Extended(NONE, acts, Drop({}, []));
    acts := acts + [Drop({}, [])];
  }

  // ---- A drop in the middle of a turn ----

  lemma Dropped(s: Thread, late: set<nat>)
    requires s.turns == [Running([FIRST, SECOND], [])] && s.queue == [] && 2 in s.jobs
    ensures var r := DropStep(s, late, []);
      && r.turns == [Running([FIRST, SECOND.(file := if 1 in late then Delivered else Taken)], [])]
      && r.jobs == s.jobs && r.failing == s.failing + {2} && r.answers == s.answers + multiset{Failure(2)} && r.queue == []
      && r.place == s.place[2 := Out]
  {
    EndsTwo(SECOND);
    hide LastDelivered, WaitingIds, Look, FileNamed;
    assert [] + [2] == [2] && [2][1..] == [];
    assert FailAll(s, [2]) == Fail(s, 2);
    assert Emptied([FIRST, SECOND], late) == [FIRST, SECOND.(file := if 1 in late then Delivered else Taken)];
    assert Moved(s.place, [2], Out) == s.place[2 := Out];
  }

  lemma EndsLate()
    ensures TurnTarget([FIRST, SECOND.(file := Delivered)]) == Target(2, Some(""), [1], true, [])
    ensures Look([FIRST, SECOND.(file := Delivered)]) == [FIRST, SECOND.(file := Delivered)]
  {
    var chain := [FIRST, SECOND.(file := Delivered)];
    LookIsChain(chain);
    assert chain[..1] == [FIRST] && chain[1 + 1..] == [] && LastDelivered(chain) == 1;
    WaitingOne(FIRST);
    hide LastDelivered, WaitingIds;
    assert Ids([FIRST]) == [1];
  }

  lemma ReportsLate(s: Thread)
    requires s.turns == [Ended([FIRST, SECOND.(file := Delivered)], false)] && 2 in s.jobs && s.jobs[2].stage.Sent?
    ensures SweepStep(s, 0).answers[Report(2)] == s.answers[Report(2)] + 1
    ensures SweepStep(s, 0).answers[Failure(2)] == s.answers[Failure(2)]
  {
    hide SweepStep;
    var e := SweepTells(s, 0, [FIRST, SECOND.(file := Delivered)], false);
    EndsLate();
    hide Look, TurnTarget;
  }

  /**
   * A stop's drain has read ask 2's file when the wrapper renames it: ask 2 is failed as dropped, Claude has
   * it all the same, and the turn's end reports it while the failure is still being told.
   */
  lemma LateDropAnswersTwice() returns (acts: seq<Action>)
    ensures ValidRun(NONE, acts)
    ensures Run(NONE, acts).answers[Failure(2)] == 1 && Run(NONE, acts).answers[Report(2)] == 1
    ensures 2 !in Run(NONE, acts).superseded && 2 !in Run(NONE, acts).cancelled
  {
    acts := LateDropped();
    hide Run, ValidRun, SweepStep;
    var d := Run(NONE, acts);
    Extended(NONE, acts, Exit(0));
    acts := acts + [Exit(0)];
    var r := Run(NONE, acts);
    assert r == d.(turns := [Ended([FIRST, SECOND.(file := Delivered)], false)]);
    ReportsLate(r);
    SweepRest(r, 0);
    Extended(NONE, acts, Sweep(0));
    acts := acts + [Sweep(0)];
  }

  lemma LateDropped() returns (acts: seq<Action>)
    ensures ValidRun(NONE, acts)
    ensures var d := Run(NONE, acts);
      && d.turns == [Running([FIRST, SECOND.(file := Delivered)], [])] && 2 in d.jobs && d.jobs[2].stage.Sent?
      && d.answers[Failure(2)] == 1 && d.answers[Report(2)] == 0 && d.superseded == {1} && d.cancelled == {}
  {
    acts := TwoMarked();
    hide Run, ValidRun, DropStep;
    var s := Run(NONE, acts);
    assert SECOND in s.turns[0].chain && 1 in WaitingNames(s.turns[0].chain);
    assert Drains(s, {1}, []);
    Dropped(s, {1});
    DropRest(s, {1}, []);
    hide Drains;
    Extended(NONE, acts, Drop({1}, []));
    acts := acts + [Drop({1}, [])];
  }

  lemma DropRest(s: Thread, late: set<nat>, left: seq<nat>)
    ensures var r := DropStep(s, late, left); r.superseded == s.superseded && r.cancelled == s.cancelled && r.marks == s.marks && r.jobs == s.jobs
  {
    var unread := if s.turns == [] then [] else WaitingIds(s.turns[0].chain);
    FailAllTells(s, s.queue + unread);
  }

  lemma OverRest(s: Thread, i: nat)
    requires Enabled(s, Sweep(i))
    ensures var e := TurnOver(s, i); e.superseded == s.superseded && e.cancelled == s.cancelled
    ensures var chain := TurnOver(s, i).turns[i].chain; chain != [] && chain[0].file.Delivered? && Look(chain)[0].file.Delivered?
  {
    var chain := TurnOver(s, i).turns[i].chain;
    hide WaitingIds, Look;
    HeadIsSeen(chain);
  }

  lemma SweepRest(s: Thread, i: nat)
    requires Enabled(s, Sweep(i))
    ensures SweepStep(s, i).superseded == s.superseded && SweepStep(s, i).cancelled == s.cancelled
  {
    hide TurnDone, Look, WaitingIds;
    if !s.turns[i].reported {
      var e := TurnOver(s, i);
      OverRest(s, i);
      hide TurnOver;
      TurnDoneTells(e, Look(e.turns[i].chain));
    }
  }

  const DROPPED := SECOND.(file := Taken)
  const THIRD: Entry := Entry(3, Some(""), 1, Waiting)

  lemma BothAreFound()
    ensures Look([FIRST, DROPPED, THIRD]) == [FIRST, SECOND, THIRD]
  {
    var chain := [FIRST, DROPPED, THIRD];
    assert chain[0] == FIRST && chain[1] == DROPPED && chain[2] == THIRD;
    assert FIRST in chain && THIRD in chain;
  }

  lemma EndsThree()
    ensures TurnTarget([FIRST, SECOND, THIRD]) == Target(1, None, [], false, [2, 3])
  {
    var look := [FIRST, SECOND, THIRD];
    OnlyFirst(look);
    assert look[0 + 1..] == [SECOND, THIRD] && look[..0] == [];
    WaitingTwo(SECOND, THIRD);
    WaitingOne(SECOND);
    WaitingOne(THIRD);
    hide LastDelivered, WaitingIds;
    assert Ids(look[..0]) == [];
    assert [2] + [3] == [2, 3];
  }

  lemma FailsTwo(e: Thread)
    requires 2 in e.jobs && 3 in e.jobs
    ensures FailAll(e, [2, 3]) == Fail(Fail(e, 2), 3)
  {
    assert [2, 3][1..] == [3] && [3][1..] == [];
  }

  lemma FailsBoth(s: Thread)
    requires s.turns == [Ended([FIRST, DROPPED, THIRD], true)] && 2 in s.jobs && 3 in s.jobs
    ensures SweepStep(s, 0).answers[Failure(2)] == s.answers[Failure(2)] + 1
    ensures SweepStep(s, 0).answers[Failure(3)] == s.answers[Failure(3)] + 1
  {
    hide SweepStep;
    var e := SweepTells(s, 0, [FIRST, DROPPED, THIRD], true);
    BothAreFound();
    EndsThree();
    hide Look, TurnTarget;
    assert e.jobs - {} == e.jobs;
    FailsTwo(e);
    hide FailAll;
  }

  /**
   * Ask 2 is dropped, and while its failure is being told ask 3 joins it and gets the number ask 2's file had:
   * the stopped turn's end finds a waiting file for both, and fails ask 2 again.
   */
  lemma ReusedNumberFailsTwice() returns (acts: seq<Action>)
    ensures ValidRun(NONE, acts) && Run(NONE, acts).answers[Failure(2)] == 2
  {
    acts := EarlyDropped();
    hide Run, ValidRun, SweepStep;
    NamesOfDropped();
    NextIs([FIRST, DROPPED], {0}, 1);
    acts := SteerAndMark(acts, 3, 2, 1);
    assert [FIRST, DROPPED] + [THIRD] == [FIRST, DROPPED, THIRD];
    acts := StoppedAndEnded(acts, [FIRST, DROPPED, THIRD]);
    FailsBoth(Run(NONE, acts));
    Extended(NONE, acts, Sweep(0));
    acts := acts + [Sweep(0)];
  }

  lemma EarlyDropped() returns (acts: seq<Action>)
    ensures ValidRun(NONE, acts)
    ensures var d := Run(NONE, acts);
      && d.turns == [Running([FIRST, DROPPED], [])] && d.jobs == map[1 := JobFile(Superseded, None), 2 := JobFile(Sent, Some(1))]
      && d.place == map[1 := InTurn(0), 2 := Out] && d.answers[Failure(2)] == 1
  {
    acts := TwoMarked();
    hide Run, ValidRun, DropStep;
    var s := Run(NONE, acts);
    Dropped(s, {});
    Extended(NONE, acts, Drop({}, []));
    acts := acts + [Drop({}, [])];
    assert s.place[2 := Out] == map[1 := InTurn(0), 2 := Out];
  }

  lemma NamesOfDropped()
    ensures Names([FIRST, DROPPED]) == {0}
  {
    assert FIRST in [FIRST, DROPPED];
  }

  // ---- Order ----

  function Later(id: Id, name: nat, file: InboxFile): Entry {
    Entry(id, Some(""), name, file)
  }

  lemma ThreeMarked() returns (acts: seq<Action>)
    ensures ValidRun(NONE, acts)
    ensures var s := Run(NONE, acts);
      && s.turns == [Running([FIRST, SECOND, AFTER_SECOND], [])] && s.queue == []
      && s.place == map[1 := InTurn(0), 2 := InTurn(0), 3 := InTurn(0)] && s.jobs.Keys == {1, 2, 3} && s.jobs[3].stage.Sent?
  {
    acts := TwoMarked();
    hide Run, ValidRun;
    NamesOfTwo();
    NextIs([FIRST, SECOND], {0, 1}, 2);
    acts := SteerAndMark(acts, 3, 2, 2);
    hide Names, IsNext;
    assert [FIRST, SECOND] + [AFTER_SECOND] == [FIRST, SECOND, AFTER_SECOND];
  }

  lemma ThreeWait() returns (acts: seq<Action>)
    ensures ValidRun(NONE, acts)
    ensures var s := Run(NONE, acts);
      && s.turns == [Running([FIRST, SECOND, AFTER_SECOND], [1, 2])] && s.queue == []
      && s.place == map[1 := InTurn(0), 2 := InTurn(0), 3 := InTurn(0)] && s.jobs.Keys == {1, 2, 3} && s.jobs[3].stage.Sent?
  {
    acts := ThreeMarked();
    hide Run, ValidRun;
    var s := Run(NONE, acts);
    WaitingOfThree();
    hide WaitingNames;
    Extended(NONE, acts, Tick(0, [1, 2]));
    acts := acts + [Tick(0, [1, 2])];
    assert s.turns[0 := s.turns[0].(listed := [1, 2])] == [Running([FIRST, SECOND, AFTER_SECOND], [1, 2])];
  }

  const GONE := [FIRST, DROPPED, Entry(3, Some(""), 2, Taken)]

  lemma GoneAre()
    ensures Emptied([FIRST, SECOND, AFTER_SECOND], {}) == GONE
    ensures Claimed(GONE, 1) == GONE
  {
  }

  lemma MovedTwo()
    ensures Moved(map[1 := InTurn(0), 2 := InTurn(0), 3 := InTurn(0)], [2, 3], Out) == map[1 := InTurn(0), 2 := Out, 3 := Out]
  {
  }

  lemma ThreeDrain(s: Thread)
    requires s.turns == [Running([FIRST, SECOND, AFTER_SECOND], [1, 2])]
    ensures Drains(s, {}, [1, 2])
  {
    WaitingOfThree();
    hide WaitingNames;
  }

  lemma ThreeDropped(s: Thread)
    requires s.turns == [Running([FIRST, SECOND, AFTER_SECOND], [1, 2])] && s.queue == []
    requires s.place == map[1 := InTurn(0), 2 := InTurn(0), 3 := InTurn(0)]
    ensures var d := DropStep(s, {}, [1, 2]);
      d.turns == [Running(GONE, [1, 2])] && d.place == map[1 := InTurn(0), 2 := Out, 3 := Out] && d.jobs == s.jobs
  {
    WaitingOfThree();
    assert Unread(s) == [2, 3];
    hide FailAll, WaitingIds, DropStep, Unread, WaitingNames;
    DropIs(s, {}, [1, 2]);
    assert [] + [2, 3] == [2, 3];
    FailAllTells(s, [2, 3]);
    GoneAre();
    MovedTwo();
    hide Emptied, Moved;
  }

  /** Asks 2 and 3 wait, the wrapper has listed both, and a stop takes both out; the tick finds the first gone. */
  lemma TwoGone() returns (acts: seq<Action>)
    ensures ValidRun(NONE, acts)
    ensures var s := Run(NONE, acts);
      && s.turns == [Running(GONE, [2])]
      && s.place == map[1 := InTurn(0), 2 := Out, 3 := Out] && s.jobs.Keys == {1, 2, 3} && s.jobs[3].stage.Sent?
  {
    acts := ThreeWait();
    hide Run, ValidRun, DropStep, Drains;
    ThreeDrain(Run(NONE, acts));
    ThreeDropped(Run(NONE, acts));
    Extended(NONE, acts, Drop({}, [1, 2]));
    acts := acts + [Drop({}, [1, 2])];
    var d := Run(NONE, acts);
    Extended(NONE, acts, Deliver(0));
    acts := acts + [Deliver(0)];
    GoneAre();
    assert [1, 2][1..] == [2];
    assert d.turns[0 := Running(GONE, [2])] == [Running(GONE, [2])];
  }

  lemma WaitingOfThree()
    ensures WaitingNames([FIRST, SECOND, AFTER_SECOND]) == {1, 2} && WaitingIds([FIRST, SECOND, AFTER_SECOND]) == [2, 3]
  {
    var chain := [FIRST, SECOND, AFTER_SECOND];
    assert SECOND in chain && AFTER_SECOND in chain;
    WaitingOne(FIRST);
    WaitingOne(SECOND);
    WaitingTwo(FIRST, SECOND);
    assert chain[..2] == [FIRST, SECOND] && [2] + [3] == [2, 3];
  }

  lemma OneName(chain: seq<Entry>)
    requires chain != [] && chain[0] == FIRST && forall k :: 1 <= k < |chain| ==> chain[k].file.Taken?
    ensures Names(chain) == {0}
  {
    assert FIRST in chain;
  }

  lemma TwoNames(chain: seq<Entry>, e: Entry)
    requires Names(chain) == {0} && e.name == 1 && !e.file.Taken?
    ensures Names(chain + [e]) == {0, 1}
  {
    assert e in chain + [e];
    forall n | n in Names(chain)
      ensures n in Names(chain + [e])
    {
      var f :| f in chain && !f.file.Taken? && f.name == n;
      assert f in chain + [e];
    }
  }

  lemma FourJoined() returns (acts: seq<Action>)
    ensures ValidRun(NONE, acts)
    ensures var s := Run(NONE, acts);
      && s.turns == [Running(GONE + [Later(4, 1, Waiting)], [2])]
      && s.place.Keys == {1, 2, 3, 4} && s.place[4] == InTurn(0) && s.jobs.Keys == {1, 2, 3, 4} && s.jobs[4].stage.Sent?
  {
    acts := TwoGone();
    hide Run, ValidRun;
    OneName(GONE);
    NextIs(GONE, {0}, 1);
    acts := SteerAndMark(acts, 4, 3, 1);
  }

  /** Then asks 4 and 5 join under the freed numbers, and the rest of the tick claims ask 5 while ask 4 waits. */
  lemma LaterAskIsClaimedFirst() returns (acts: seq<Action>)
    ensures ValidRun(NONE, acts)
    ensures var s := Run(NONE, acts);
      && |s.turns| == 1 && |s.turns[0].chain| == 5
      && s.turns[0].chain[3] == Later(4, 1, Waiting) && s.turns[0].chain[4] == Later(5, 2, Delivered)
  {
    acts := FourJoined();
    hide Run, ValidRun;
    var four := GONE + [Later(4, 1, Waiting)];
    OneName(GONE);
    TwoNames(GONE, Later(4, 1, Waiting));
    NextIs(four, {0, 1}, 2);
    acts := SteerAndMark(acts, 5, 4, 2);
    var five := four + [Later(5, 2, Waiting)];
    assert Run(NONE, acts).turns == [Running(five, [2])];
    hide Names, IsNext;
    Extended(NONE, acts, Deliver(0));
    acts := acts + [Deliver(0)];
    assert Run(NONE, acts).turns[0].chain == Claimed(five, 2);
  }

  // ---- A crash ----

  lemma {:induction false} FailAllTells(s: Thread, ids: seq<Id>)
    ensures var r := FailAll(s, ids); r == s.(failing := r.failing, answers := r.answers)
    ensures forall a :: FailAll(s, ids).answers[a] >= s.answers[a]
    decreases |ids|
  {
    if ids != [] { FailAllTells(Fail(s, ids[0]), ids[1..]); }
  }

  lemma TurnDoneTells(s: Thread, chain: seq<Entry>)
    requires chain != [] && chain[0].file.Delivered?
    ensures var r := TurnDone(s, chain); r == s.(jobs := r.jobs, failing := r.failing, answers := r.answers)
    ensures forall a :: TurnDone(s, chain).answers[a] >= s.answers[a]
  {
    var t := TurnTarget(chain);
    var gone := set id | id in t.superseded && id in s.jobs && !s.jobs[id].stage.Reporting?;
    FailAllTells(s.(jobs := s.jobs - gone), t.lost);
    hide TurnTarget, FailAll;
  }

  /** Whatever the thread: a lost follow-up that was told, its turn still on disk when the agent dies, goes on its way again at the next sweep. */
  lemma ToldIsCarriedAgain(s: Thread, died: set<nat>, r: Thread, i: nat, k: nat)
    requires r == Restarted(s, died) && i < |s.turns| && s.turns[i].ended
    requires s.turns[i].chain != [] && s.turns[i].chain[0].file.Delivered?
    requires k < |s.turns[i].chain| && s.turns[i].chain[k].file.Waiting? && Count(s, s.turns[i].chain[k].id) > 0
    ensures i < |r.turns| && r.turns[i].chain == s.turns[i].chain && r.turns[i].ended && !r.turns[i].swept && !Good(SweepStep(r, i))
  {
    RestartedTurn(s, died, i);
    hide SweepStep, Good, Restarted;
    CarriedAgain(r, i, k);
  }

  /** Whatever the thread: an ask that a follow-up has joined is reported by the end of a turn it is the last of, if its job file does not say so. */
  lemma UnsaidIsReported(s: Thread, i: nat)
    requires i < |s.turns| && s.turns[i].chain != [] && s.turns[i].chain[0].file.Delivered? && !s.turns[i].reported
    requires var t := s.turns[i];
      && (forall j, k :: 0 <= j < k < |t.chain| ==> t.chain[j].id != t.chain[k].id)
      && Reports(s, t.chain, Answers(t)) && t.chain[Answers(t)].id in s.superseded
    ensures !Good(SweepStep(s, i))
  {
    var e, t := TurnOver(s, i), s.turns[i];
    var k, x := Answers(t), t.chain[Answers(t)].id;
    OverUnsaid(s, i);
    assert SweepStep(s, i) == TurnDone(e, Look(AfterDrain(t)));
    hide TurnOver, TurnDone, SweepStep, LastDelivered, AfterDrain, Answers, Look;
    TurnDoneIs(e, Look(AfterDrain(t)), k, SweepStep(s, i), x);
    hide Good;
    ReportedIsBad(SweepStep(s, i), x);
  }

  lemma OverUnsaid(s: Thread, i: nat)
    requires i < |s.turns| && s.turns[i].chain != [] && s.turns[i].chain[0].file.Delivered?
    ensures var e, t := TurnOver(s, i), s.turns[i];
      && e.turns[i].chain == AfterDrain(t) && e.jobs == s.jobs && e.answers == s.answers && e.superseded == s.superseded
    ensures var look := Look(AfterDrain(s.turns[i]));
      && look != [] && look[0].file.Delivered? && Answers(s.turns[i]) == LastDelivered(look) && |look| == |s.turns[i].chain|
      && forall j :: 0 <= j < |look| ==> look[j].id == s.turns[i].chain[j].id
  {
    HeadIsSeen(AfterDrain(s.turns[i]));
    hide Look, WaitingIds, LastDelivered;
  }

  lemma ReportedIsBad(s: Thread, x: Id)
    requires x in s.superseded && s.answers[Report(x)] > 0
    ensures !Good(s)
  {
  }

  lemma RestartedTurn(s: Thread, died: set<nat>, i: nat)
    requires i < |s.turns| && s.turns[i].ended
    ensures var r := Restarted(s, died);
      |r.turns| == |s.turns| && r.answers == s.answers && r.turns[i] == s.turns[i].(stopped := false, reported := false, swept := false)
  {
  }

  lemma CarriedAgain(r: Thread, i: nat, k: nat)
    requires i < |r.turns| && !r.turns[i].stopped && !r.turns[i].reported && r.turns[i].chain != [] && r.turns[i].chain[0].file.Delivered?
    requires k < |r.turns[i].chain| && r.turns[i].chain[k].file.Waiting? && Count(r, r.turns[i].chain[k].id) > 0
    ensures !Good(SweepStep(r, i))
  {
    var e := TurnOver(r, i);
    Requeued(r, i, k);
    assert SweepStep(r, i) == TurnDone(e, Look(e.turns[i].chain));
    hide TurnOver, TurnDone, SweepStep;
    HeadIsSeen(e.turns[i].chain);
    TurnDoneTells(e, Look(e.turns[i].chain));
  }

  lemma Requeued(r: Thread, i: nat, k: nat)
    requires i < |r.turns| && !r.turns[i].stopped && r.turns[i].chain != [] && r.turns[i].chain[0].file.Delivered?
    requires k < |r.turns[i].chain| && r.turns[i].chain[k].file.Waiting?
    ensures var e, x := TurnOver(r, i), r.turns[i].chain[k].id;
      && e.answers == r.answers && x in e.place && e.place[x] == Queued
      && e.turns[i].chain != [] && e.turns[i].chain[0].file.Delivered?
  {
    var x := r.turns[i].chain[k].id;
    assert x in WaitingIds(r.turns[i].chain);
    hide WaitingIds;
    assert Drained(r, i).place[x] == Queued;
  }

  /** A turn of one ask ends: its asker is told Claude's reply. */
  lemma AloneReported(s: Thread, id: Id, number: nat)
    requires s.turns == [Turn(number, [Entry(id, None, 0, Delivered)], [], true, false, false, false)] && id in s.jobs && s.jobs[id].stage.Sent?
    ensures SweepStep(s, 0).answers[Report(id)] == s.answers[Report(id)] + 1
    ensures SweepStep(s, 0).answers[Failure(id)] == s.answers[Failure(id)] && SweepStep(s, 0).superseded == s.superseded
  {
    hide SweepStep;
    var chain := [Entry(id, None, 0, Delivered)];
    var e := SweepTells(s, number, chain, false);
    EndsAlone(id);
    hide Look, TurnTarget;
    assert e.jobs - {} == e.jobs;
  }

  lemma EndsAlone(id: Id)
    ensures var chain := [Entry(id, None, 0, Delivered)]; Look(chain) == chain && TurnTarget(chain) == Target(id, None, [], true, [])
  {
    var chain := [Entry(id, None, 0, Delivered)];
    assert chain[..0] == [] && chain[1..] == [];
    assert LastDelivered(chain) == 0 && WaitingIds([]) == [] && Ids([]) == [];
    LookIsChain(chain);
  }

  /** Asks 2 and on of a turn that ended, unread, are queued with their job files as they were. */
  lemma Carried(s: Thread, chain: seq<Entry>)
    requires s.turns == [Ended(chain, false)] && |chain| >= 2 && chain[0] == FIRST && chain[1].id == 2
    requires s.queue == [] && forall k :: 1 <= k < |chain| ==> chain[k].file.Waiting? && chain[k].id > 1
    requires forall j, k :: 0 <= j < k < |chain| ==> chain[j].name != chain[k].name
    ensures var r := SweepStep(s, 0);
      |r.queue| > 0 && r.queue[0] == 2 && r.superseded == s.superseded && r.answers == s.answers
      && (2 in s.jobs ==> 2 in r.jobs && r.jobs[2] == s.jobs[2]) && |r.turns| == 1 && r.turns[0].swept
  {
    var e, after := TurnOver(s, 0), Emptied(chain, {});
    CarriedOver(s, chain, e);
    LookIsChain(after);
    assert SweepStep(s, 0) == TurnDone(e, after);
    hide *;
    ToldFirst(e, after);
  }

  lemma CarriedOver(s: Thread, chain: seq<Entry>, e: Thread)
    requires s.turns == [Ended(chain, false)] && |chain| >= 2 && chain[0] == FIRST && e == TurnOver(s, 0)
    requires s.queue == [] && forall k :: 1 <= k < |chain| ==> chain[k].file.Waiting?
    ensures var after := Emptied(chain, {});
      && after[0] == FIRST && |after| > 1 && LastDelivered(after) == 0 && WaitingIds(after[1..]) == []
      && e.turns == [Turn(0, after, [], true, false, true, true)] && e.jobs == s.jobs && e.answers == s.answers && e.superseded == s.superseded
      && |e.queue| > 0 && e.queue[0] == chain[1].id
  {
    FirstOf(chain);
    NothingWaits(Emptied(chain, {})[1..]);
    hide LastDelivered, WaitingIds;
    assert WaitingIds(chain) + [] == WaitingIds(chain);
  }

  lemma ToldFirst(e: Thread, chain: seq<Entry>)
    requires chain != [] && chain[0].file.Delivered? && chain[0].id == 1 && LastDelivered(chain) == 0 && |chain| > 1 && WaitingIds(chain[1..]) == []
    ensures var r := TurnDone(e, chain);
      r == e.(jobs := r.jobs) && (2 in e.jobs ==> 2 in r.jobs && r.jobs[2] == e.jobs[2])
  {
    hide LastDelivered, WaitingIds;
    var t := TurnTarget(chain);
    assert t.id == 1 && t.superseded == [] && t.lost == [] && !t.report;
    assert e.jobs - {} == e.jobs;
  }

  lemma FirstOf(chain: seq<Entry>)
    requires |chain| >= 2 && chain[0].file.Delivered? && forall k :: 1 <= k < |chain| ==> chain[k].file.Waiting?
    ensures |WaitingIds(chain)| > 0 && WaitingIds(chain)[0] == chain[1].id
  {
    var last := |chain| - 1;
    if last == 1 {
      assert chain[..1] == [chain[0]] && chain[..1][..0] == [];
      assert WaitingIds(chain[..1]) == [];
    } else {
      FirstOf(chain[..last]);
    }
  }

  lemma StartedAlone(acts0: seq<Action>) returns (acts: seq<Action>)
    requires ValidRun(NONE, acts0)
    requires var s := Run(NONE, acts0); |s.queue| > 0 && s.queue[0] == 2 && |s.turns| == 1 && s.turns[0].swept
    ensures ValidRun(NONE, acts)
    ensures var s, r := Run(NONE, acts0), Run(NONE, acts);
      r.answers == s.answers && r.superseded == s.superseded && r.jobs == s.jobs
      && r.turns == [Turn(s.started, [Entry(2, None, 0, Delivered)], [], false, false, false, false)]
  {
    hide Run, ValidRun, SweepStep;
    Extended(NONE, acts0, SweepEnd(0));
    acts := acts0 + [SweepEnd(0)];
    assert Run(NONE, acts).turns == [];
    Extended(NONE, acts, StartNext);
    acts := acts + [StartNext];
    Extended(NONE, acts, Start(2));
    acts := acts + [Start(2)];
  }

  /** The carried ask 2 gets a turn of its own, and that turn ends. */
  lemma ThenAlone(acts0: seq<Action>) returns (acts: seq<Action>)
    requires ValidRun(NONE, acts0)
    requires var s := Run(NONE, acts0);
      |s.queue| > 0 && s.queue[0] == 2 && |s.turns| == 1 && s.turns[0].swept && 2 in s.jobs && s.jobs[2].stage.Sent?
    ensures ValidRun(NONE, acts)
    ensures Run(NONE, acts).answers[Report(2)] == Run(NONE, acts0).answers[Report(2)] + 1
    ensures Run(NONE, acts).answers[Failure(2)] == Run(NONE, acts0).answers[Failure(2)]
    ensures Run(NONE, acts).superseded == Run(NONE, acts0).superseded
  {
    hide Run, ValidRun, SweepStep;
    acts := StartedAlone(acts0);
    var n := Run(NONE, acts0).started;
    Extended(NONE, acts, Exit(0));
    acts := acts + [Exit(0)];
    assert Run(NONE, acts).turns == [Turn(n, [Entry(2, None, 0, Delivered)], [], true, false, false, false)];
    AloneReported(Run(NONE, acts), 2, n);
    Extended(NONE, acts, Sweep(0));
    acts := acts + [Sweep(0)];
  }

  /** The agent dies with asks 2 and on unread; its successor sweeps the turn and runs ask 2 next. */
  lemma AfterRestart(acts0: seq<Action>, chain: seq<Entry>) returns (acts: seq<Action>)
    requires ValidRun(NONE, acts0) && |chain| >= 2 && chain[0] == FIRST && chain[1].id == 2
    requires forall k :: 1 <= k < |chain| ==> chain[k].file.Waiting? && chain[k].id > 1
    requires forall j, k :: 0 <= j < k < |chain| ==> chain[j].name != chain[k].name
    requires var s := Run(NONE, acts0);
      s.queue == [] && |s.turns| == 1 && s.turns[0].number == 0 && s.turns[0].chain == chain && s.turns[0].listed == [] && 2 in s.jobs && s.jobs[2].stage.Sent?
    ensures ValidRun(NONE, acts)
    ensures Run(NONE, acts).answers[Report(2)] == Run(NONE, acts0).answers[Report(2)] + 1
    ensures Run(NONE, acts).answers[Failure(2)] == Run(NONE, acts0).answers[Failure(2)]
    ensures Run(NONE, acts).superseded == Run(NONE, acts0).superseded
  {
    hide Run, ValidRun, SweepStep;
    Extended(NONE, acts0, Restart({0}));
    acts := acts0 + [Restart({0})];
    assert Run(NONE, acts).turns == [Ended(chain, false)];
    Carried(Run(NONE, acts), chain);
    Extended(NONE, acts, Sweep(0));
    acts := acts + [Sweep(0)];
    acts := ThenAlone(acts);
  }

  /** The agent dies between a stopped turn's end and its `done` mark: the lost follow-up is failed, then run and reported. */
  lemma RestartMidSweepAnswersTwice() returns (acts: seq<Action>)
    ensures ValidRun(NONE, acts)
    ensures Run(NONE, acts).answers[Failure(2)] == 1 && Run(NONE, acts).answers[Report(2)] == 1
  {
    acts := Two();
    hide Run, ValidRun, SweepStep;
    acts := StoppedAndEnded(acts, [FIRST, SECOND]);
    Told(Run(NONE, acts));
    Extended(NONE, acts, Sweep(0));
    acts := acts + [Sweep(0)];
    acts := AfterRestart(acts, [FIRST, SECOND]);
  }

  const AFTER_SECOND: Entry := Entry(3, Some(""), 2, Waiting)

  lemma NamesOfTwo()
    ensures Names([FIRST, SECOND]) == {0, 1}
  {
    assert FIRST in [FIRST, SECOND] && SECOND in [FIRST, SECOND];
  }

  lemma Three() returns (acts: seq<Action>)
    ensures ValidRun(NONE, acts)
    ensures var s := Run(NONE, acts);
      s.queue == [] && s.turns == [Running([FIRST, SECOND, AFTER_SECOND], [])] && 2 in s.jobs && s.jobs[2].stage.Sent?
      && s.answers == multiset{} && 2 in s.superseded
  {
    acts := TwoMarked();
    hide Run, ValidRun;
    NamesOfTwo();
    NextIs([FIRST, SECOND], {0, 1}, 2);
    acts := Steer(acts, 3, 2, 2);
    assert [FIRST, SECOND] + [AFTER_SECOND] == [FIRST, SECOND, AFTER_SECOND];
  }

  /** The agent dies between taking ask 3 behind ask 2 and marking ask 2: ask 2 is reported though ask 3 joined it. */
  lemma RestartMidSteerReportsJoined() returns (acts: seq<Action>)
    ensures ValidRun(NONE, acts)
    ensures Run(NONE, acts).answers[Report(2)] == 1 && 2 in Run(NONE, acts).superseded
  {
    hide Run, ValidRun;
    acts := Three();
    acts := AfterRestart(acts, [FIRST, SECOND, AFTER_SECOND]);
  }
}
