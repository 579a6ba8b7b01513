/** In every run, crashes and all, the asks of a turn are one line: no duplicate, each follow-up behind the ask it joined. */
module AskLines {
  import opened Common
  import opened AskChain
  import opened AskAnswers

  /** A job file at its first stage belongs to an ask that has not got into the chat. */
  ghost predicate Apt(s: Thread, id: Id) {
    id in s.place && id in s.jobs && s.jobs[id].stage.Preparing? ==> s.place[id].Fetching? || s.place[id].Stranded? || s.place[id].Out?
  }

  ghost predicate LineOk(s: Thread, chain: seq<Entry>) {
    chain != [] && Linear(s, chain) && forall k :: 0 <= k < |chain| ==> Entered(s, chain[k].id)
  }

  ghost predicate Lined(s: Thread) {
    && (forall i :: 0 <= i < |s.turns| ==> LineOk(s, s.turns[i].chain))
    && (forall id :: id in s.queue || id in s.follows ==> Entered(s, id))
    && (forall id :: Apt(s, id))
  }

  /** What a line rests on stays: who joined whom, and who got as far as the chat. */
  ghost predicate Grows(s: Thread, s': Thread) {
    Later(s, s') && forall x :: (Entered(s, x) ==> Entered(s', x)) && Apt(s', x)
  }

  lemma LineKept(s: Thread, s': Thread, chain: seq<Entry>)
    requires Grows(s, s') && LineOk(s, chain)
    ensures LineOk(s', chain)
  {
    hide Entered, Apt;
    forall j, k | 0 <= j && k == j + 1 && k < |chain|
      ensures Joined(s', chain[j].id, chain[k].id)
    {
      assert Joined(s, chain[j].id, chain[k].id);
    }
  }

  lemma LinesKept(s: Thread, s': Thread)
    requires Grows(s, s')
    requires forall i :: 0 <= i < |s'.turns| ==> LineOk(s, s'.turns[i].chain)
    requires forall id :: id in s'.queue || id in s'.follows ==> Entered(s, id) || Entered(s', id)
    ensures Lined(s')
  {
    hide Entered, Apt, LineOk;
    forall i | 0 <= i < |s'.turns|
      ensures LineOk(s', s'.turns[i].chain)
    {
      LineKept(s, s', s'.turns[i].chain);
    }
  }

  // ---- What the parts of a step leave as it was ----

  /** No job file is new, and none went back to its first stage. */
  ghost predicate NoYounger(s: Thread, s': Thread) {
    forall x :: x in s'.jobs ==> x in s.jobs && (s'.jobs[x].stage.Preparing? ==> s.jobs[x].stage.Preparing?)
  }

  lemma {:induction false} FailAllOnlyTells(s: Thread, ids: seq<Id>)
    ensures FailAll(s, ids) == s.(failing := FailAll(s, ids).failing, answers := FailAll(s, ids).answers)
    decreases |ids|
  {
    if ids != [] { FailAllOnlyTells(Fail(s, ids[0]), ids[1..]); }
  }

  lemma TurnDoneOnlyTells(s: Thread, chain: seq<Entry>)
    requires chain != [] && chain[0].file.Delivered?
    ensures var r := TurnDone(s, chain);
      r == s.(jobs := r.jobs, failing := r.failing, answers := r.answers) && NoYounger(s, r)
  {
    var t := TurnTarget(chain);
    var gone := set id | id in t.superseded && id in s.jobs && !s.jobs[id].stage.Reporting?;
    FailAllOnlyTells(s.(jobs := s.jobs - gone), t.lost);
    hide TurnTarget, FailAll;
  }

  /** The same asks, whatever became of their files. */
  lemma SameLine(s: Thread, chain: seq<Entry>, after: seq<Entry>)
    requires LineOk(s, chain) && |after| == |chain| && forall k :: 0 <= k < |chain| ==> after[k].id == chain[k].id
    ensures LineOk(s, after)
  {
    hide Entered;
    forall j, k | 0 <= j && k == j + 1 && k < |chain|
      ensures Joined(s, after[j].id, after[k].id)
    {
      assert Joined(s, chain[j].id, chain[k].id);
    }
  }

  lemma WaitingEntered(s: Thread, chain: seq<Entry>)
    requires LineOk(s, chain)
    ensures forall x :: x in WaitingIds(chain) ==> Entered(s, x)
  {
    hide Entered;
  }

  // ---- The steps ----

  lemma JoinedLine(s: Thread, s': Thread, chain: seq<Entry>, e: Entry)
    requires LineOk(s, chain) && Grows(s, s') && !Entered(s, e.id) && Entered(s', e.id)
    requires e.file.Waiting? && Joined(s', chain[|chain| - 1].id, e.id)
    ensures LineOk(s', chain + [e])
  {
    var after := chain + [e];
    forall k | 0 <= k < |chain|
      ensures chain[k].id != e.id && Entered(s', after[k].id)
    {
      assert Entered(s, chain[k].id);
    }
    hide Entered;
    forall j, k | 0 <= j && k == j + 1 && k < |after|
      ensures Joined(s', after[j].id, after[k].id)
    {
      if k < |chain| { assert Joined(s, chain[j].id, chain[k].id); }
    }
  }

  lemma DecideLines(s: Thread, id: Id, text: string, open: bool, name: nat)
    requires Lined(s) && id in s.place && s.place[id].Joining?
    ensures Lined(SteerDecideStep(s, id, text, open, name))
  {
    var s', prev := SteerDecideStep(s, id, text, open, name), s.place[id].prev;
    var at := TurnNumbered(s.turns, s.place[id].number);
    assert !Entered(s, id) && Apt(s, id);
    forall x
      ensures Apt(s', x) && (Entered(s, x) ==> Entered(s', x))
    {
      assert Apt(s, x);
    }
    if at.Some? && open && Takes(s.turns[at.value], prev) {
      assert Grows(s, s') && Entered(s', id) && Joined(s', prev, id);
      hide Entered, Apt;
      forall i | 0 <= i < |s'.turns|
        ensures LineOk(s', s'.turns[i].chain)
      {
        LineKept(s, s', s.turns[i].chain);
        if i == at.value { JoinedLine(s, s', s.turns[i].chain, Entry(id, Some(text), name, Waiting)); }
      }
    } else {
      hide TurnNumbered, Takes;
      LinesKept(s, s');
    }
  }

  lemma StartLines(s: Thread, id: Id)
    requires Lined(s) && id in s.place && s.place[id].Starting?
    ensures Lined(StartStep(s, id))
  {
    assert Apt(s, id) && Entered(s, id);
    assert LineOk(s, [Entry(id, None, 0, Delivered)]);
    var s' := StartStep(s, id);
    forall x
      ensures Apt(s', x) && (Entered(s, x) ==> Entered(s', x))
    {
      assert Apt(s, x);
    }
    LinesKept(s, s');
  }

  lemma DropLines(s: Thread, late: set<nat>, left: seq<nat>)
    requires Lined(s)
    ensures Lined(DropStep(s, late, left))
  {
    var s' := DropStep(s, late, left);
    var unread := if s.turns == [] then [] else WaitingIds(s.turns[0].chain);
    FailAllOnlyTells(s, s.queue + unread);
    if s.turns != [] {
      WaitingEntered(s, s.turns[0].chain);
      SameLine(s, s.turns[0].chain, Emptied(s.turns[0].chain, late));
    }
    hide FailAll, WaitingIds, LineOk;
    assert s'.place == Moved(s.place, s.queue + unread, Out);
    forall x
      ensures Apt(s', x) && (Entered(s, x) ==> Entered(s', x))
    {
      assert Apt(s, x);
    }
    LinesKept(s, s');
  }

  lemma DrainLines(s: Thread, i: nat)
    requires Lined(s) && i < |s.turns|
    ensures Lined(Drained(s, i))
  {
    WaitingEntered(s, s.turns[i].chain);
    SameLine(s, s.turns[i].chain, Emptied(s.turns[i].chain, {}));
    hide WaitingIds, LineOk;
    if !s.turns[i].stopped {
      var s' := Drained(s, i);
      forall x
        ensures Apt(s', x) && (Entered(s, x) ==> Entered(s', x))
      {
        assert Apt(s, x);
      }
      LinesKept(s, s');
    }
  }

  /** From a turn's inbox being drained to its end being told. */
  lemma OverLines(s: Thread, s': Thread, i: nat)
    requires Lined(s) && OnlyMoves(s, s', i)
    ensures Lined(s')
  {
    hide LineOk, SteerDecideStep, StartStep, DropStep, SweepStep, ReconcileStep, Buried, FindTurn;
    forall x
      ensures Apt(s', x) && (Entered(s, x) ==> Entered(s', x))
    {
      assert Apt(s, x);
    }
    LinesKept(s, s');
  }

  lemma SweepLines(s: Thread, i: nat)
    requires Lined(s) && Enabled(s, Sweep(i))
    ensures Lined(SweepStep(s, i))
  {
    DrainLines(s, i);
    if s.turns[i].reported {
      SilentOnlyMoves(s, i);
    } else {
      TellingOnlyMoves(s, i);
    }
    hide Lined, Drained, SweepStep, Enabled;
    OverLines(Drained(s, i), SweepStep(s, i), i);
  }

  /** After the drain a sweep moves asks out of the turn and takes job files, and adds to no chain and no queue. */
  ghost predicate OnlyMoves(d: Thread, s': Thread, i: nat) {
    && i < |d.turns| == |s'.turns| && NoYounger(d, s') && Later(d, s') && s'.queue == d.queue && s'.follows == d.follows
    && (forall j :: 0 <= j < |d.turns| ==> s'.turns[j].chain == d.turns[j].chain)
    && (s'.place == d.place || s'.place == Leave(d.place, d.turns[i].number))
  }

  lemma SilentOnlyMoves(s: Thread, i: nat)
    requires Enabled(s, Sweep(i)) && s.turns[i].reported
    ensures OnlyMoves(Drained(s, i), SweepStep(s, i), i)
  {
    assert |Drained(s, i).turns| == |s.turns|;
    hide Drained;
  }

  lemma TellingOnlyMoves(s: Thread, i: nat)
    requires Enabled(s, Sweep(i)) && !s.turns[i].reported
    ensures OnlyMoves(Drained(s, i), SweepStep(s, i), i)
  {
    hide TurnDone, Look, WaitingIds;
    var e, s' := TurnOver(s, i), SweepStep(s, i);
    HeadIsSeen(e.turns[i].chain);
    OverOnlyMoves(s, i);
    assert s' == TurnDone(e, Look(e.turns[i].chain));
    hide Drained, TurnOver, SweepStep;
    TurnDoneOnlyTells(e, Look(e.turns[i].chain));
  }

  lemma OverOnlyMoves(s: Thread, i: nat)
    requires i < |s.turns|
    ensures var d, e := Drained(s, i), TurnOver(s, i);
      && i < |d.turns| == |e.turns| && e.place == Leave(d.place, d.turns[i].number)
      && e.queue == d.queue && e.follows == d.follows && e.jobs == d.jobs && e.superseded == d.superseded
      && forall j :: 0 <= j < |d.turns| ==> e.turns[j].chain == d.turns[j].chain
  {
    assert |Drained(s, i).turns| == |s.turns|;
    hide Drained;
  }

  lemma ReconcileLines(s: Thread, id: Id)
    requires Lined(s)
    ensures Lined(ReconcileStep(s, id))
  {
    hide LineOk, FindTurn;
    var s' := ReconcileStep(s, id);
    forall x
      ensures Apt(s', x) && (Entered(s, x) ==> Entered(s', x))
    {
      assert Apt(s, x);
    }
    LinesKept(s, s');
  }

  lemma BuriedLines(s: Thread, tomb: Option<Id>)
    requires Lined(s)
    ensures Lined(s.(jobs := Buried(s.jobs, tomb, 100)))
  {
    var s' := s.(jobs := Buried(s.jobs, tomb, 100));
    BuriedTombstones(s.jobs, tomb, 100);
    hide LineOk, Buried;
    forall x
      ensures Apt(s', x) && (Entered(s, x) ==> Entered(s', x))
    {
      assert Apt(s, x);
    }
    LinesKept(s, s');
  }

  lemma PrepareLines(s: Thread, a: Action)
    requires Lined(s) && Enabled(s, a) && (a.PrepareFailed? || a.PrepareTimedOut? || a.Prepared? || a.SendDone?)
    ensures Lined(Step(s, a))
  {
    var s' := Step(s, a);
    hide LineOk, SteerDecideStep, StartStep, DropStep, SweepStep, ReconcileStep, Buried, FindTurn;
    forall x
      ensures Apt(s', x) && (Entered(s, x) ==> Entered(s', x))
    {
      assert Apt(s, x);
    }
    LinesKept(s, s');
  }

  lemma NewAskLines(s: Thread, a: Action)
    requires Lined(s) && Enabled(s, a) && (a.Ask? || a.SteerBegin?)
    ensures Lined(Step(s, a))
  {
    var s' := Step(s, a);
    hide LineOk, SteerDecideStep, StartStep, DropStep, SweepStep, ReconcileStep, Buried, FindTurn;
    forall x
      ensures Apt(s', x) && (Entered(s, x) ==> Entered(s', x))
    {
      assert Apt(s, x);
    }
    LinesKept(s, s');
  }

  lemma OneAskLines(s: Thread, a: Action)
    requires Lined(s) && Enabled(s, a) && (a.StartNext? || a.ScriptEnd? || a.Cancel?)
    ensures Lined(Step(s, a))
  {
    var s' := Step(s, a);
    if a.StartNext? { assert s.queue[0] in s.queue; }
    hide LineOk, SteerDecideStep, StartStep, DropStep, SweepStep, ReconcileStep, Buried, FindTurn;
    forall x
      ensures Apt(s', x) && (Entered(s, x) ==> Entered(s', x))
    {
      assert Apt(s, x);
    }
    LinesKept(s, s');
  }

  lemma FindLines(s: Thread, id: Id)
    requires Lined(s) && id in s.place && s.place[id].Steering?
    ensures Lined(SteerFindStep(s, id))
  {
    var s' := SteerFindStep(s, id);
    hide LineOk, FindTurn;
    forall x
      ensures Apt(s', x) && (Entered(s, x) ==> Entered(s', x))
    {
      assert Apt(s, x);
    }
    LinesKept(s, s');
  }

  lemma MarkLines(s: Thread, id: Id)
    requires Lined(s) && id in s.marks
    ensures Lined(MarkStep(s, id))
  {
    var s' := MarkStep(s, id);
    hide LineOk, SteerDecideStep, StartStep, DropStep, SweepStep, ReconcileStep, Buried, FindTurn;
    forall x
      ensures Apt(s', x) && (Entered(s, x) ==> Entered(s', x))
    {
      assert Apt(s, x);
    }
    LinesKept(s, s');
  }

  lemma CancelAskLines(s: Thread, id: Id)
    requires Lined(s)
    ensures Lined(CancelAskStep(s, id))
  {
    var s' := CancelAskStep(s, id);
    hide LineOk, WithoutId;
    forall x
      ensures Apt(s', x) && (Entered(s, x) ==> Entered(s', x))
    {
      assert Apt(s, x);
    }
    LinesKept(s, s');
  }

  lemma TurnFlagLines(s: Thread, a: Action)
    requires Lined(s) && Enabled(s, a) && (a.Stop? || a.Exit? || a.SweepEnd? || a.Restart? || a.Tick?)
    ensures Lined(Step(s, a))
  {
    var s' := Step(s, a);
    hide LineOk, SteerDecideStep, StartStep, DropStep, SweepStep, ReconcileStep, Buried, FindTurn;
    forall x
      ensures Apt(s', x) && (Entered(s, x) ==> Entered(s', x))
    {
      assert Apt(s, x);
    }
    LinesKept(s, s');
  }

  lemma StepLines(s: Thread, a: Action)
    requires Lined(s) && Enabled(s, a)
    ensures Lined(Step(s, a))
  {
    hide Lined;
    match a
    case SteerDecide(id, text, open, name) => DecideLines(s, id, text, open, name);
    case Start(id) => StartLines(s, id);
    case Drop(late, left) => DropLines(s, late, left);
    case Sweep(i) => SweepLines(s, i);
    case Reconcile(id) => ReconcileLines(s, id);
    case CancelRest(tomb) => BuriedLines(s, tomb);
    case Tick(_, _) => TurnFlagLines(s, a);
    case Deliver(i) => DeliverLines(s, i);
    case SteerFind(id) => FindLines(s, id);
    case Mark(id) => MarkLines(s, id);
    case CancelAsk(id) => CancelAskLines(s, id);
    case Stop(_) => TurnFlagLines(s, a);
    case Exit(_) => TurnFlagLines(s, a);
    case SweepEnd(_) => TurnFlagLines(s, a);
    case Restart(_) => TurnFlagLines(s, a);
    case PrepareFailed(_) => PrepareLines(s, a);
    case Prepared(_) => PrepareLines(s, a);
    case PrepareTimedOut(_) => PrepareLines(s, a);
    case SendDone(_, _) => PrepareLines(s, a);
    case Ask(_) => NewAskLines(s, a);
    case SteerBegin(_, _) => NewAskLines(s, a);
    case _ => OneAskLines(s, a);
  }

  lemma DeliverLines(s: Thread, i: nat)
    requires Lined(s) && Enabled(s, Deliver(i))
    ensures Lined(Step(s, Deliver(i)))
  {
    SameLine(s, s.turns[i].chain, Claimed(s.turns[i].chain, s.turns[i].listed[0]));
    hide LineOk;
    var s' := Step(s, Deliver(i));
    forall x
      ensures Apt(s', x) && (Entered(s, x) ==> Entered(s', x))
    {
      assert Apt(s, x);
    }
    LinesKept(s, s');
  }

  lemma {:induction false} RunLines(s: Thread, acts: seq<Action>)
    requires Lined(s) && ValidRun(s, acts)
    ensures Lined(Run(s, acts))
    decreases |acts|
  {
    hide Lined, Step, Enabled;
    if acts != [] {
      StepLines(s, acts[0]);
      RunLines(Step(s, acts[0]), acts[1..]);
    }
  }

  /** In whatever run: no ask twice in a turn, each follow-up behind the ask it joined, all but the last superseded. */
  lemma ChainsAreLines(acts: seq<Action>, i: nat)
    requires ValidRun(NONE, acts) && i < |Run(NONE, acts).turns|
    ensures var s := Run(NONE, acts); s.turns[i].chain != [] && Linear(s, s.turns[i].chain)
  {
    assert Lined(NONE);
    RunLines(NONE, acts);
    hide Run;
    assert LineOk(Run(NONE, acts), Run(NONE, acts).turns[i].chain);
  }
}
