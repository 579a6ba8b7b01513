/** A follow-up's text in a turn's chain is the one it was steered with, whatever has happened since. */
module AskTexts {
  import opened Common
  import opened AskChain
  import opened AskAnswers
  import opened AskLines

  /** The texts the asks of a run were steered with. */
  function Steered(acts: seq<Action>): set<(Id, string)> {
    set n | 0 <= n < |acts| && acts[n].SteerDecide? :: (acts[n].id, acts[n].text)
  }

  /** Each follow-up of the chain has a text that was told for it; the turn's first ask has none. */
  ghost predicate ChainTold(told: set<(Id, string)>, chain: seq<Entry>) {
    forall k :: 0 <= k < |chain| ==>
      (chain[k].text.Some? <==> k > 0) && (chain[k].text.Some? ==> (chain[k].id, chain[k].text.value) in told)
  }

  ghost predicate AllTold(told: set<(Id, string)>, s: Thread) {
    forall i :: 0 <= i < |s.turns| ==> ChainTold(told, s.turns[i].chain)
  }

  /** The same asks with the same texts, whatever became of their files. */
  ghost predicate SameAsks(chain: seq<Entry>, after: seq<Entry>) {
    |after| == |chain| && forall k :: 0 <= k < |chain| ==> after[k].id == chain[k].id && after[k].text == chain[k].text
  }

  ghost predicate Had(s: Thread, chain: seq<Entry>) {
    exists j :: 0 <= j < |s.turns| && SameAsks(s.turns[j].chain, chain)
  }

  /** No turn is new, and each has the asks it had. */
  ghost predicate KeepsChains(s: Thread, s': Thread) {
    forall i :: 0 <= i < |s'.turns| ==> Had(s, s'.turns[i].chain)
  }

  lemma Kept(told: set<(Id, string)>, s: Thread, s': Thread)
    requires AllTold(told, s) && KeepsChains(s, s')
    ensures AllTold(told, s')
  {
    forall i | 0 <= i < |s'.turns|
      ensures ChainTold(told, s'.turns[i].chain)
    {
      assert Had(s, s'.turns[i].chain);
      var j :| 0 <= j < |s.turns| && SameAsks(s.turns[j].chain, s'.turns[i].chain);
      assert ChainTold(told, s.turns[j].chain);
    }
  }

  lemma KeptInPlace(s: Thread, s': Thread)
    requires |s'.turns| == |s.turns| && forall i :: 0 <= i < |s.turns| ==> SameAsks(s.turns[i].chain, s'.turns[i].chain)
    ensures KeepsChains(s, s')
  {
    hide SameAsks;
    forall i | 0 <= i < |s'.turns|
      ensures Had(s, s'.turns[i].chain)
    {
      assert SameAsks(s.turns[i].chain, s'.turns[i].chain);
    }
  }

  lemma FilesOnly(s: Thread, a: Action)
    requires Enabled(s, a) && (a.Deliver? || a.Drop? || a.Sweep? || a.SweepEnd?)
    ensures KeepsChains(s, Step(s, a))
  {
    match a
    case Deliver(i) => KeptInPlace(s, Step(s, a));
    case Drop(late, left) => DropKeeps(s, late, left);
    case Sweep(i) => SweepKeeps(s, i);
    case SweepEnd(i) =>
      var s' := SweepEndStep(s, i);
      forall k | 0 <= k < |s'.turns|
        ensures Had(s, s'.turns[k].chain)
      {
        assert SameAsks(s.turns[if k < i then k else k + 1].chain, s'.turns[k].chain);
      }
  }

  lemma DropKeeps(s: Thread, late: set<nat>, left: seq<nat>)
    ensures KeepsChains(s, DropStep(s, late, left))
  {
    var unread := if s.turns == [] then [] else WaitingIds(s.turns[0].chain);
    FailAllOnlyTells(s, s.queue + unread);
    hide FailAll, WaitingIds;
    KeptInPlace(s, DropStep(s, late, left));
  }

  lemma SweepKeeps(s: Thread, i: nat)
    requires Enabled(s, Sweep(i))
    ensures KeepsChains(s, SweepStep(s, i))
  {
    hide Drained, SweepStep, SameAsks, KeepsChains;
    SweepOnlyMoves(s, i);
    DrainedKeeps(s, i);
    KeptInPlace(s, SweepStep(s, i));
  }

  lemma SweepOnlyMoves(s: Thread, i: nat)
    requires Enabled(s, Sweep(i))
    ensures var d, s' := Drained(s, i), SweepStep(s, i);
      |s'.turns| == |d.turns| && forall k :: 0 <= k < |d.turns| ==> s'.turns[k].chain == d.turns[k].chain
  {
    hide SweepStep, Drained;
    if s.turns[i].reported { SilentOnlyMoves(s, i); } else { TellingOnlyMoves(s, i); }
  }

  lemma DrainedKeeps(s: Thread, i: nat)
    requires i < |s.turns|
    ensures |Drained(s, i).turns| == |s.turns|
    ensures forall k :: 0 <= k < |s.turns| ==> SameAsks(s.turns[k].chain, Drained(s, i).turns[k].chain)
  {
    hide WaitingIds;
  }

  lemma OthersKeep(s: Thread, a: Action)
    requires Enabled(s, a) && !a.SteerDecide? && !a.Start? && !a.Deliver? && !a.Drop? && !a.Sweep? && !a.SweepEnd?
    ensures KeepsChains(s, Step(s, a))
  {
    hide FailAll, FindTurn, Buried, DropStep, SweepStep, SteerDecideStep, StartStep, WithoutId, Moved, Awake;
    KeptInPlace(s, Step(s, a));
  }

  lemma SteerTells(told: set<(Id, string)>, s: Thread, id: Id, text: string, open: bool, name: nat)
    requires AllTold(told, s) && id in s.place && s.place[id].Joining?
    ensures AllTold(told + {(id, text)}, SteerDecideStep(s, id, text, open, name))
  {
    var s' := SteerDecideStep(s, id, text, open, name);
    hide TurnNumbered;
    forall i | 0 <= i < |s'.turns|
      ensures ChainTold(told + {(id, text)}, s'.turns[i].chain)
    {
      assert ChainTold(told, s.turns[i].chain);
    }
  }

  lemma StepTells(told: set<(Id, string)>, s: Thread, a: Action)
    requires AllTold(told, s) && Enabled(s, a)
    ensures AllTold(told + (if a.SteerDecide? then {(a.id, a.text)} else {}), Step(s, a))
  {
    hide AllTold, KeepsChains;
    if a.SteerDecide? {
      SteerTells(told, s, a.id, a.text, a.open, a.name);
    } else {
      assert told + {} == told;
      if a.Start? {
        StartTells(told, s, a.id);
      } else if a.Deliver? || a.Drop? || a.Sweep? || a.SweepEnd? {
        FilesOnly(s, a);
        hide Step;
        Kept(told, s, Step(s, a));
      } else {
        OthersKeep(s, a);
        hide Step;
        Kept(told, s, Step(s, a));
      }
    }
  }

  lemma StartTells(told: set<(Id, string)>, s: Thread, id: Id)
    requires AllTold(told, s)
    ensures AllTold(told, StartStep(s, id))
  {
  }

  lemma {:induction false} RunTells(told: set<(Id, string)>, s: Thread, acts: seq<Action>)
    requires AllTold(told, s) && ValidRun(s, acts)
    ensures AllTold(told + Steered(acts), Run(s, acts))
    decreases |acts|
  {
    hide Step, Enabled, AllTold;
    if acts == [] {
      assert told + Steered(acts) == told;
    } else {
      var first := if acts[0].SteerDecide? then {(acts[0].id, acts[0].text)} else {};
      StepTells(told, s, acts[0]);
      RunTells(told + first, Step(s, acts[0]), acts[1..]);
      SteeredFirst(acts);
      assert told + first + Steered(acts[1..]) == told + Steered(acts);
    }
  }

  lemma SteeredFirst(acts: seq<Action>)
    requires acts != []
    ensures Steered(acts) == (if acts[0].SteerDecide? then {(acts[0].id, acts[0].text)} else {}) + Steered(acts[1..])
  {
    forall p | p in Steered(acts)
      ensures p in (if acts[0].SteerDecide? then {(acts[0].id, acts[0].text)} else {}) + Steered(acts[1..])
    {
      var n :| 0 <= n < |acts| && acts[n].SteerDecide? && p == (acts[n].id, acts[n].text);
      if n > 0 { assert acts[1..][n - 1] == acts[n]; }
    }
    forall p | p in Steered(acts[1..])
      ensures p in Steered(acts)
    {
      var n :| 0 <= n < |acts[1..]| && acts[1..][n].SteerDecide? && p == (acts[1..][n].id, acts[1..][n].text);
      assert acts[n + 1] == acts[1..][n];
    }
  }

  lemma NoneTwice(s: Thread, chain: seq<Entry>)
    requires Linear(s, chain)
    ensures forall j, k :: 0 <= j < k < |chain| ==> chain[j].id != chain[k].id
  {
  }

  /** The sweep looks at the asks of the turn as they joined it. */
  lemma SeenInSweep(s: Thread, i: nat)
    requires Enabled(s, Sweep(i))
    ensures |TurnOver(s, i).turns| == |s.turns|
    ensures SameAsks(s.turns[i].chain, Look(TurnOver(s, i).turns[i].chain)) && Look(TurnOver(s, i).turns[i].chain)[0].file.Delivered?
  {
    assert |Drained(s, i).turns| == |s.turns|;
    HeadIsSeen(TurnOver(s, i).turns[i].chain);
    hide WaitingIds, FileNamed;
  }

  lemma TargetHasItsText(told: set<(Id, string)>, chain: seq<Entry>)
    requires chain != [] && chain[0].file.Delivered? && ChainTold(told, chain)
    requires forall j, k :: 0 <= j < k < |chain| ==> chain[j].id != chain[k].id
    ensures var t := TurnTarget(chain); (t.after.None? <==> t.id == chain[0].id) && (t.after.Some? ==> (t.id, t.after.value) in told)
  {
    TargetFound(chain);
    hide TurnTarget, LastDelivered;
    var k := LastDelivered(chain);
    assert chain[k].id == chain[0].id <==> k == 0;
  }

  /** The same for the target a sweep finds, in the chain as it sees it. */
  lemma SweepHasItsText(told: set<(Id, string)>, s: Thread, i: nat)
    requires Enabled(s, Sweep(i)) && ChainTold(told, s.turns[i].chain)
    requires forall j, k :: 0 <= j < k < |s.turns[i].chain| ==> s.turns[i].chain[j].id != s.turns[i].chain[k].id
    ensures var seen := Look(TurnOver(s, i).turns[i].chain);
      && seen != [] && seen[0].file.Delivered?
      && var t := TurnTarget(seen); (t.after.None? <==> t.id == seen[0].id) && (t.after.Some? ==> (t.id, t.after.value) in told)
  {
    SeenInSweep(s, i);
    hide TurnOver, TurnTarget, Look;
    TargetHasItsText(told, Look(TurnOver(s, i).turns[i].chain));
  }

  /**
   * In whatever run: the text a turn's end looks for, to know where the answer to its target starts, is one
   * that very ask was steered with; there is none exactly when the target is the ask the turn began with.
   */
  lemma AfterIsItsOwnText(acts: seq<Action>, i: nat)
    requires ValidRun(NONE, acts) && Enabled(Run(NONE, acts), Sweep(i))
    ensures var seen := Look(TurnOver(Run(NONE, acts), i).turns[i].chain);
      && seen != [] && seen[0].file.Delivered?
      && var t := TurnTarget(seen); (t.after.None? <==> t.id == seen[0].id) && (t.after.Some? ==> (t.id, t.after.value) in Steered(acts))
  {
    hide Run, ValidRun, Look, TurnOver, TurnTarget;
    RunTells({}, NONE, acts);
    ChainsAreLines(acts, i);
    var s := Run(NONE, acts);
    assert ChainTold({} + Steered(acts), s.turns[i].chain);
    assert {} + Steered(acts) == Steered(acts);
    hide ChainTold, Steered, Joined;
    NoneTwice(s, s.turns[i].chain);
    SweepHasItsText(Steered(acts), s, i);
  }
}
