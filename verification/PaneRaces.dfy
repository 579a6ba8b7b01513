/** A takeover leaves its browser uncounted for a moment: a run that ends with five owners' browsers. */
module PaneRaces {
  import opened Common
  import opened PaneManager
  import opened PaneRooms

  lemma {:induction false} Extended(s: Manager, acts: seq<Action>, a: Action)
    requires ValidRun(s, acts) && Enabled(Run(s, acts), a)
    ensures ValidRun(s, acts + [a]) && Run(s, acts + [a]) == Step(Run(s, acts), a)
    decreases |acts|
  {
    hide Step, Enabled;
    if acts == [] {
      assert (acts + [a])[1..] == [];
    } else {
      assert (acts + [a])[1..] == acts[1..] + [a];
      Extended(Step(s, acts[0]), acts[1..], a);
    }
  }

  const KEPT := Browser(Some(7), false, 0, Some(7), false, false)
  const PLAIN := Browser(None, false, 0, None, false, false)

  function Plain(x: Stream): Request {
    Request(x, None, false, 0, None, 0, true)
  }

  function Keeping(x: Stream): Request {
    Request(x, Some(7), false, 0, Some(7), 0, true)
  }

  /** Owners' browsers, all live, one to a stream. */
  ghost predicate Lively(s: Manager, n: nat) {
    && s.parked == [] && |s.browsers| == n && Known(s)
    && (forall p :: 0 <= p < n ==> !s.browsers[p].guest && !s.browsers[p].gone)
    && s.holders == map[7 := 0]
    && n > 0 && s.browsers[0] == KEPT
  }

  lemma Opened(s: Manager, n: nat, x: Stream)
    requires Lively(s, n) && x !in s.used && |Placed(s, false)| < MAX_PANES
    ensures Enabled(s, Attach(Plain(x)))
    ensures var r := AttachStep(s, Plain(x));
      r == s.(browsers := s.browsers + [PLAIN], panes := s.panes[x := n], used := s.used + {x}) && Lively(r, n + 1)
  {
    hide Placed;
    var s1 := s.(used := s.used + {x});
    assert s1.(parked := s1.parked) == s1;
    SamePlaced(s, s1);
  }

  lemma SamePlaced(s: Manager, s1: Manager)
    requires s1.browsers == s.browsers && s1.panes == s.panes && s1.parked == s.parked
    ensures Placed(s1, false) == Placed(s, false)
  {
  }

  lemma First() returns (acts: seq<Action>)
    ensures ValidRun(Start(true), acts)
    ensures Run(Start(true), acts) == Manager([KEPT], map[0 := 0], [], map[7 := 0], map[], {0}, true)
  {
    acts := [];
    Extended(Start(true), acts, Attach(Keeping(0)));
    acts := acts + [Attach(Keeping(0))];
    assert Run(Start(true), acts) == Manager([], map[], [], map[], map[7 := Waiting(Keeping(0))], {0}, true) by {
      assert [] + [Attach(Keeping(0))] == [Attach(Keeping(0))];
    }
    Extended(Start(true), acts, Waited(7, false));
    acts := acts + [Waited(7, false)];
    hide Run, ValidRun;
    assert Run(Start(true), acts) == Manager([], map[], [], map[], map[7 := Cleared(Keeping(0))], {0}, true);
    assert Placed(Run(Start(true), acts), false) == {};
    Extended(Start(true), acts, OpenFresh(7));
    acts := acts + [OpenFresh(7)];
    assert Run(Start(true), acts) == Manager([KEPT], map[0 := 0], [], map[7 := 0], map[7 := Settling], {0}, true);
    Extended(Start(true), acts, Unlock(7));
    acts := acts + [Unlock(7)];
    assert map[7 := Settling] - {7} == map[];
  }

  lemma {:induction false} Below(a: set<nat>, n: nat)
    requires forall p :: p in a ==> p < n
    ensures |a| <= n
    decreases n
  {
    if n == 0 {
      assert a == {};
    } else {
      Below(a - {n - 1}, n - 1);
      Fewer(a, (a - {n - 1}) + {n - 1});
    }
  }

  lemma FewPlaced(s: Manager)
    ensures |Placed(s, false)| <= |s.browsers|
  {
    Below(Placed(s, false), |s.browsers|);
  }

  /** One more fresh owner's browser. */
  lemma OneMore(acts0: seq<Action>, n: nat, x: Stream) returns (acts: seq<Action>)
    requires ValidRun(Start(true), acts0)
    requires var s := Run(Start(true), acts0); Lively(s, n) && x !in s.used && |Placed(s, false)| < MAX_PANES
    ensures ValidRun(Start(true), acts)
    ensures var s, r := Run(Start(true), acts0), Run(Start(true), acts);
      r == s.(browsers := s.browsers + [PLAIN], panes := s.panes[x := n], used := s.used + {x}) && Lively(r, n + 1)
  {
    hide Run, ValidRun, AttachStep, Placed;
    Opened(Run(Start(true), acts0), n, x);
    Extended(Start(true), acts0, Attach(Plain(x)));
    acts := acts0 + [Attach(Plain(x))];
  }

  lemma Four() returns (acts: seq<Action>)
    ensures ValidRun(Start(true), acts)
    ensures Run(Start(true), acts) ==
      Manager([KEPT, PLAIN, PLAIN, PLAIN], map[0 := 0, 1 := 1, 2 := 2, 3 := 3], [], map[7 := 0], map[], {0, 1, 2, 3}, true)
  {
    acts := First();
    hide Run, ValidRun, Placed;
    FewPlaced(Run(Start(true), acts));
    acts := OneMore(acts, 1, 1);
    FewPlaced(Run(Start(true), acts));
    acts := OneMore(acts, 2, 2);
    FewPlaced(Run(Start(true), acts));
    acts := OneMore(acts, 3, 3);
  }

  /** The fourth browser is taken over in another tab, a fifth opens in between, and the takeover goes on. */
  lemma TakeoverMakesFive() returns (acts: seq<Action>)
    ensures ValidRun(Start(true), acts) && |Placed(Run(Start(true), acts), false)| == MAX_PANES + 1
  {
    acts := Four();
    hide Run, ValidRun, AttachStep;
    TakenOver(Run(Start(true), acts));
    Extended(Start(true), acts, Attach(Keeping(4)));
    acts := acts + [Attach(Keeping(4))];
    ThreeLeft(Run(Start(true), acts));
    acts := OneMore(acts, 4, 5);
    Extended(Start(true), acts, Take(7));
    var s := Run(Start(true), acts);
    acts := acts + [Take(7)];
    FiveNow(s);
  }

  lemma ThreeLeft(s: Manager)
    requires s.browsers == [KEPT, PLAIN, PLAIN, PLAIN] && s.panes == map[1 := 1, 2 := 2, 3 := 3] && s.parked == []
    ensures |Placed(s, false)| < MAX_PANES
  {
    Fewer(Placed(s, false), {1, 2, 3});
  }

  lemma FiveNow(s: Manager)
    requires s.browsers == [KEPT, PLAIN, PLAIN, PLAIN, PLAIN] && s.panes == map[1 := 1, 2 := 2, 3 := 3, 5 := 4]
    requires 7 in s.locks && s.locks[7] == Taking(4, 0)
    ensures |Placed(TakeStep(s, 7), false)| == MAX_PANES + 1
  {
    var r := TakeStep(s, 7);
    assert r.panes == map[1 := 1, 2 := 2, 3 := 3, 5 := 4, 4 := 0];
    assert r.panes[4] == 0 && r.panes[1] == 1 && r.panes[2] == 2 && r.panes[3] == 3 && r.panes[5] == 4;
    assert Placed(r, false) == {0, 1, 2, 3, 4};
  }

  lemma TakenOver(s: Manager)
    requires s == Manager([KEPT, PLAIN, PLAIN, PLAIN], map[0 := 0, 1 := 1, 2 := 2, 3 := 3], [], map[7 := 0], map[], {0, 1, 2, 3}, true)
    ensures Enabled(s, Attach(Keeping(4)))
    ensures AttachStep(s, Keeping(4)) ==
      s.(panes := map[1 := 1, 2 := 2, 3 := 3], locks := map[7 := Taking(4, 0)], used := {0, 1, 2, 3, 4})
  {
    var s1 := s.(used := s.used + {4});
    assert s1.panes[0] == 0 && IsLive(s1, 0);
    assert Detached(s1, 0).panes == map[1 := 1, 2 := 2, 3 := 3];
  }
}
