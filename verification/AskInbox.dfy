/**
 * The numbers of a turn's inbox files: along a turn's asks they rise, in every run; and while no steer takes
 * a number that the wrapper's tick has passed, the asks reach Claude in the order they joined.
 */
module AskInbox {
  import opened Common
  import opened AskChain
  import opened AskAnswers

  /** A later ask's file has a higher number. */
  ghost predicate Rises(chain: seq<Entry>) {
    forall j, k :: 0 <= j < k < |chain| && !chain[j].file.Taken? && !chain[k].file.Taken? ==> chain[j].name < chain[k].name
  }

  ghost predicate AllRise(s: Thread) {
    forall i :: 0 <= i < |s.turns| ==> Rises(s.turns[i].chain)
  }

  /** None waits, or is listed, whose number is below a claimed one's. */
  ghost predicate OldestFirst(t: Turn) {
    && (forall j, k :: 0 <= j < |t.chain| && 0 <= k < |t.chain| && t.chain[j].file.Delivered? && t.chain[k].file.Waiting? ==>
          t.chain[j].name < t.chain[k].name)
    && (forall j, m :: 0 <= j < |t.chain| && t.chain[j].file.Delivered? && m in t.listed ==> t.chain[j].name < m)
    && (forall k, m :: 0 <= k < |t.chain| && t.chain[k].file.Waiting? && m in t.listed ==> t.chain[k].name in t.listed || m < t.chain[k].name)
    && Sorted(t.listed)
  }

  ghost predicate AllInOrder(s: Thread) {
    forall i :: 0 <= i < |s.turns| ==> OldestFirst(s.turns[i])
  }

  /** A steer takes a number the tick has passed, with later ones of its list still to come. */
  ghost predicate Overtaken(s: Thread, a: Action)
    requires Enabled(s, a)
  {
    a.SteerDecide? &&
      var at := TurnNumbered(s.turns, s.place[a.id].number);
      && at.Some? && a.open && Takes(s.turns[at.value], s.place[a.id].prev)
      && a.name !in s.turns[at.value].listed && exists m :: m in s.turns[at.value].listed && a.name < m
  }

  ghost predicate NoneOvertaken(s: Thread, acts: seq<Action>)
    requires ValidRun(s, acts)
    decreases |acts|
  {
    acts == [] || (!Overtaken(s, acts[0]) && NoneOvertaken(Step(s, acts[0]), acts[1..]))
  }

  // ---- What a step does to one inbox ----

  /** A follow-up's file gets the next number. */
  lemma JoinRises(chain: seq<Entry>, e: Entry)
    requires Rises(chain) && IsNext(e.name, Names(chain))
    ensures Rises(chain + [e])
  {
    forall j | 0 <= j < |chain| && !chain[j].file.Taken?
      ensures chain[j].name < e.name
    {
      assert chain[j] in chain && chain[j].name in Names(chain);
    }
  }

  lemma JoinInOrder(t: Turn, e: Entry)
    requires OldestFirst(t) && IsNext(e.name, Names(t.chain)) && e.file.Waiting?
    requires e.name in t.listed || forall m :: m in t.listed ==> m <= e.name
    ensures OldestFirst(t.(chain := t.chain + [e]))
  {
    forall j | 0 <= j < |t.chain| && !t.chain[j].file.Taken?
      ensures t.chain[j].name < e.name
    {
      assert t.chain[j] in t.chain && t.chain[j].name in Names(t.chain);
    }
  }

  lemma ClaimInOrder(t: Turn)
    requires OldestFirst(t) && Rises(t.chain) && t.listed != []
    ensures OldestFirst(t.(chain := Claimed(t.chain, t.listed[0]), listed := t.listed[1..]))
  {
    var n, rest := t.listed[0], t.listed[1..];
    var after := Claimed(t.chain, n);
    forall m | m in t.listed
      ensures m == n || m in rest
    {
      var i :| 0 <= i < |t.listed| && t.listed[i] == m;
      if i > 0 { assert rest[i - 1] == m; }
    }
    forall m | m in rest
      ensures n < m && m in t.listed
    {
      var i :| 0 <= i < |rest| && rest[i] == m;
      assert t.listed[i + 1] == m;
    }
    assert forall k :: 0 <= k < |after| ==> after[k].name == t.chain[k].name;
    forall j, k | 0 <= j < |after| && 0 <= k < |after| && after[j].file.Delivered? && after[k].file.Waiting?
      ensures after[j].name < after[k].name
    {
      var w := t.chain[k].name;
      assert t.chain[k].file.Waiting? && w != n;
      if !t.chain[j].file.Delivered? {
        assert t.chain[j].name == n && n in t.listed;
        assert w in t.listed || n < w;
        assert w in t.listed ==> w in rest;
      }
    }
  }

  lemma TickInOrder(t: Turn, listed: seq<nat>)
    requires OldestFirst(t) && Lists(listed, t.chain)
    ensures OldestFirst(t.(listed := listed))
  {
    forall m | m in listed
      ensures exists k :: 0 <= k < |t.chain| && t.chain[k].file.Waiting? && t.chain[k].name == m
    {
      var e :| e in t.chain && e.file.Waiting? && e.name == m;
      var k :| 0 <= k < |t.chain| && t.chain[k] == e;
    }
    forall k | 0 <= k < |t.chain| && t.chain[k].file.Waiting?
      ensures t.chain[k].name in listed
    {
      assert t.chain[k] in t.chain && t.chain[k].name in WaitingNames(t.chain);
    }
  }

  lemma DrainInOrder(t: Turn, late: set<nat>, left: seq<nat>)
    requires OldestFirst(t) && Sorted(left)
    requires forall m :: m in left ==> m in t.listed || m in WaitingNames(t.chain)
    requires forall n, m :: n in late && m in left ==> n < m
    ensures OldestFirst(t.(chain := Emptied(t.chain, late), listed := left))
  {
    var after := Emptied(t.chain, late);
    forall j, m | 0 <= j < |after| && after[j].file.Delivered? && m in left
      ensures after[j].name < m
    {
      if t.chain[j].file.Delivered? && m !in t.listed {
        var e :| e in t.chain && e.file.Waiting? && e.name == m;
        var k :| 0 <= k < |t.chain| && t.chain[k] == e;
      }
    }
  }

  // ---- The steps ----

  /** Each turn is one there was, its flags apart, or as a step of the inbox left it. */
  ghost predicate Follows(t: Turn, t': Turn) {
    t'.chain == t.chain && t'.listed == t.listed
  }

  lemma FollowsKeeps(t: Turn, t': Turn)
    requires Follows(t, t')
    ensures Rises(t.chain) ==> Rises(t'.chain)
    ensures OldestFirst(t) ==> OldestFirst(t')
  {
  }

  lemma SteerKeeps(s: Thread, a: Action)
    requires AllRise(s) && a.SteerDecide? && Enabled(s, a)
    ensures AllRise(Step(s, a)) && (AllInOrder(s) && !Overtaken(s, a) ==> AllInOrder(Step(s, a)))
  {
    var at := TurnNumbered(s.turns, s.place[a.id].number);
    if at.Some? && a.open && Takes(s.turns[at.value], s.place[a.id].prev) {
      var t, e := s.turns[at.value], Entry(a.id, Some(a.text), a.name, Waiting);
      JoinRises(t.chain, e);
      if AllInOrder(s) && !Overtaken(s, a) { JoinInOrder(t, e); }
      hide Rises, OldestFirst, IsNext;
    }
  }

  /** One turn's inbox moves. */
  lemma OneInbox(s: Thread, s': Thread, i: nat)
    requires AllRise(s) && i < |s.turns| && |s'.turns| == |s.turns|
    requires forall j :: 0 <= j < |s.turns| && j != i ==> s'.turns[j] == s.turns[j]
    requires Rises(s'.turns[i].chain) && (OldestFirst(s.turns[i]) ==> OldestFirst(s'.turns[i]))
    ensures AllRise(s') && (AllInOrder(s) ==> AllInOrder(s'))
  {
    hide Rises, OldestFirst;
  }

  lemma TickKeeps(s: Thread, i: nat, listed: seq<nat>)
    requires AllRise(s) && Enabled(s, Tick(i, listed))
    ensures var s' := SetTurn(s, i, s.turns[i].(listed := listed)); AllRise(s') && (AllInOrder(s) ==> AllInOrder(s'))
  {
    if OldestFirst(s.turns[i]) { TickInOrder(s.turns[i], listed); }
    hide Rises, OldestFirst;
    OneInbox(s, SetTurn(s, i, s.turns[i].(listed := listed)), i);
  }

  lemma DeliverKeeps(s: Thread, i: nat)
    requires AllRise(s) && Enabled(s, Deliver(i))
    ensures AllRise(Step(s, Deliver(i))) && (AllInOrder(s) ==> AllInOrder(Step(s, Deliver(i))))
  {
    var t := s.turns[i];
    if OldestFirst(t) { ClaimInOrder(t); }
    var t' := t.(chain := Claimed(t.chain, t.listed[0]), listed := t.listed[1..]);
    assert Rises(t'.chain);
    hide Rises, OldestFirst;
    OneInbox(s, SetTurn(s, i, t'), i);
  }

  lemma DropKeeps(s: Thread, late: set<nat>, left: seq<nat>)
    requires AllRise(s) && Drains(s, late, left)
    ensures AllRise(DropStep(s, late, left)) && (AllInOrder(s) ==> AllInOrder(DropStep(s, late, left)))
  {
    if s.turns != [] {
      var t := s.turns[0];
      if OldestFirst(t) { DrainInOrder(t, late, left); }
      assert Rises(Emptied(t.chain, late));
      hide Rises, OldestFirst, FailAll, WaitingIds;
      OneInbox(s, DropStep(s, late, left), 0);
    }
  }

  lemma DrainedInbox(s: Thread, i: nat)
    requires AllRise(s) && i < |s.turns|
    ensures AllRise(Drained(s, i)) && (AllInOrder(s) ==> AllInOrder(Drained(s, i)))
  {
    var t := s.turns[i];
    if !t.stopped {
      if OldestFirst(t) { KeptInOrder(t); }
      assert Rises(Emptied(t.chain, {}));
      hide Rises, OldestFirst, WaitingIds;
      OneInbox(s, Drained(s, i), i);
    }
  }

  lemma OverTurns(s: Thread, i: nat)
    requires i < |s.turns|
    ensures var d, e := Drained(s, i), TurnOver(s, i);
      |e.turns| == |d.turns| && forall j :: 0 <= j < |d.turns| ==> Follows(d.turns[j], e.turns[j])
  {
    assert |Drained(s, i).turns| == |s.turns|;
    hide Drained;
  }

  lemma SweepTurns(s: Thread, i: nat)
    requires Enabled(s, Sweep(i))
    ensures var d, s' := Drained(s, i), SweepStep(s, i);
      |s'.turns| == |d.turns| && forall j :: 0 <= j < |d.turns| ==> Follows(d.turns[j], s'.turns[j])
  {
    hide Drained, TurnDone, Look;
    HeadStays(s, i);
    if !s.turns[i].reported {
      OverTurns(s, i);
      hide TurnOver;
      TurnDoneTurns(TurnOver(s, i), Look(TurnOver(s, i).turns[i].chain));
    }
  }

  lemma HeadStays(s: Thread, i: nat)
    requires i < |s.turns| && s.turns[i].chain != [] && s.turns[i].chain[0].file.Delivered?
    ensures |Drained(s, i).turns| == |s.turns| == |TurnOver(s, i).turns|
    ensures var chain := TurnOver(s, i).turns[i].chain; chain != [] && Look(chain)[0].file.Delivered?
  {
    var chain := TurnOver(s, i).turns[i].chain;
    hide WaitingIds, Look;
    HeadIsSeen(chain);
  }

  lemma SweepInbox(s: Thread, i: nat)
    requires AllRise(s) && Enabled(s, Sweep(i))
    ensures AllRise(SweepStep(s, i)) && (AllInOrder(s) ==> AllInOrder(SweepStep(s, i)))
  {
    DrainedInbox(s, i);
    SweepTurns(s, i);
    hide AllRise, AllInOrder, Drained, SweepStep;
    AllFollow(Drained(s, i), SweepStep(s, i));
  }

  lemma AllFollow(d: Thread, s': Thread)
    requires |s'.turns| == |d.turns| && forall j :: 0 <= j < |d.turns| ==> Follows(d.turns[j], s'.turns[j])
    ensures AllRise(d) ==> AllRise(s')
    ensures AllInOrder(d) ==> AllInOrder(s')
  {
    hide Rises, OldestFirst;
    forall j | 0 <= j < |s'.turns|
      ensures Rises(d.turns[j].chain) ==> Rises(s'.turns[j].chain)
      ensures OldestFirst(d.turns[j]) ==> OldestFirst(s'.turns[j])
    {
      FollowsKeeps(d.turns[j], s'.turns[j]);
    }
  }

  lemma KeptInOrder(t: Turn)
    requires OldestFirst(t)
    ensures OldestFirst(t.(chain := Emptied(t.chain, {})))
  {
  }

  lemma {:induction false} FailAllTurns(s: Thread, ids: seq<Id>)
    ensures FailAll(s, ids).turns == s.turns
    decreases |ids|
  {
    if ids != [] { FailAllTurns(Fail(s, ids[0]), ids[1..]); }
  }

  lemma TurnDoneTurns(s: Thread, chain: seq<Entry>)
    requires chain != [] && chain[0].file.Delivered?
    ensures TurnDone(s, chain).turns == s.turns
  {
    var t := TurnTarget(chain);
    var gone := set id | id in t.superseded && id in s.jobs && !s.jobs[id].stage.Reporting?;
    FailAllTurns(s.(jobs := s.jobs - gone), t.lost);
    hide TurnTarget, FailAll;
  }

  lemma FlagTurns(s: Thread, a: Action)
    requires Enabled(s, a) && (a.Stop? || a.Exit? || a.CancelAsk? || a.Restart?)
    ensures var s' := Step(s, a);
      |s'.turns| == |s.turns| && forall j :: 0 <= j < |s.turns| ==> Follows(s.turns[j], s'.turns[j])
  {
    hide FindTurn, WithoutId;
    match a
    case Stop(i) =>
    case Exit(i) =>
    case CancelAsk(id) => assert Step(s, a) == CancelAskStep(s, id);
    case Restart(died) => assert Step(s, a) == Restarted(s, died);
  }

  lemma SameTurns(s: Thread, a: Action)
    requires Enabled(s, a) && !a.SteerDecide? && !a.Tick? && !a.Deliver? && !a.Drop? && !a.Sweep? && !a.Start? && !a.SweepEnd?
    requires !a.Stop? && !a.Exit? && !a.CancelAsk? && !a.Restart?
    ensures Step(s, a).turns == s.turns
  {
    hide SteerDecideStep, DropStep, SweepStep, SweepEndStep, StartStep, CancelAskStep, Restarted, Buried, FindTurn;
  }

  /** Steps that move no inbox file. */
  lemma OtherTurns(s: Thread, a: Action)
    requires Enabled(s, a) && !a.SteerDecide? && !a.Tick? && !a.Deliver? && !a.Drop? && !a.Sweep? && !a.Start? && !a.SweepEnd?
    ensures var s' := Step(s, a);
      |s'.turns| == |s.turns| && forall j :: 0 <= j < |s.turns| ==> Follows(s.turns[j], s'.turns[j])
  {
    hide Step, Enabled;
    if a.Stop? || a.Exit? || a.CancelAsk? || a.Restart? {
      FlagTurns(s, a);
    } else {
      SameTurns(s, a);
    }
  }

  lemma OtherInbox(s: Thread, a: Action)
    requires AllRise(s) && Enabled(s, a) && !a.SteerDecide? && !a.Tick? && !a.Deliver? && !a.Drop? && !a.Sweep?
    ensures AllRise(Step(s, a)) && (AllInOrder(s) ==> AllInOrder(Step(s, a)))
  {
    if a.Start? {
      assert Step(s, a) == StartStep(s, a.id);
      FirstInOrder(StartStep(s, a.id).turns[|s.turns|], a.id);
      hide Rises, OldestFirst;
    } else if a.SweepEnd? {
      assert Step(s, a) == SweepEndStep(s, a.turn);
      hide Rises, OldestFirst;
    } else {
      OtherTurns(s, a);
      hide AllRise, AllInOrder, Step, Enabled;
      AllFollow(s, Step(s, a));
    }
  }

  lemma FirstInOrder(t: Turn, id: Id)
    requires t.chain == [Entry(id, None, 0, Delivered)] && t.listed == []
    ensures Rises(t.chain) && OldestFirst(t)
  {
  }

  lemma StepKeepsOrder(s: Thread, a: Action)
    requires AllRise(s) && Enabled(s, a)
    ensures AllRise(Step(s, a)) && (AllInOrder(s) && !Overtaken(s, a) ==> AllInOrder(Step(s, a)))
  {
    hide AllRise, AllInOrder;
    match a
    case SteerDecide(_, _, _, _) => SteerKeeps(s, a);
    case Tick(i, listed) => TickKeeps(s, i, listed);
    case Deliver(i) => DeliverKeeps(s, i);
    case Drop(late, left) => DropKeeps(s, late, left);
    case Sweep(i) => SweepInbox(s, i);
    case _ => OtherInbox(s, a);
  }

  lemma {:induction false} RunKeepsOrder(s: Thread, acts: seq<Action>)
    requires AllRise(s) && ValidRun(s, acts)
    ensures AllRise(Run(s, acts)) && (AllInOrder(s) && NoneOvertaken(s, acts) ==> AllInOrder(Run(s, acts)))
    decreases |acts|
  {
    hide AllRise, AllInOrder, Step, Enabled, Overtaken;
    if acts != [] {
      StepKeepsOrder(s, acts[0]);
      RunKeepsOrder(Step(s, acts[0]), acts[1..]);
    }
  }

  // ---- Main results ----

  /** In every run the files of a turn's inbox are numbered in the order their asks joined; so a drain by number carries them in that order. */
  lemma NumbersRise(acts: seq<Action>, i: nat)
    requires ValidRun(NONE, acts) && i < |Run(NONE, acts).turns|
    ensures Rises(Run(NONE, acts).turns[i].chain)
  {
    RunKeepsOrder(NONE, acts);
    hide Run;
  }

  /** While no steer is overtaken, no ask waits in the inbox ahead of one that Claude has. */
  lemma NoneWaitsBehind(acts: seq<Action>, i: nat)
    requires ValidRun(NONE, acts) && NoneOvertaken(NONE, acts) && i < |Run(NONE, acts).turns|
    ensures var chain := Run(NONE, acts).turns[i].chain;
      forall j, k :: 0 <= j < k < |chain| && chain[k].file.Delivered? ==> !chain[j].file.Waiting?
  {
    RunKeepsOrder(NONE, acts);
    hide Run;
    assert OldestFirst(Run(NONE, acts).turns[i]);
  }
}
