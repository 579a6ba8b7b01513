/**
 * Which page of a guest's browser is the pane's own: the pane creates its pages one at a time, and
 * Chromium may announce a new page before it answers the call that made it, or after.
 */
module OwnPages {
  type Id = nat

  /**
   * `expected`: the expectation held for a creation whose page is not announced yet; `early`: pages that
   * took it. `creating`, `returned`, `announced`, `closed` (sent a close) and `resumed` are the history.
   */
  datatype Pages = Pages(
    expected: nat, early: set<Id>, own: set<Id>,
    creating: bool, returned: set<Id>, announced: set<Id>, closed: set<Id>, resumed: set<Id>)

  const NONE := Pages(0, {}, {}, false, {}, {}, {}, {})

  function LessOne(n: nat): nat {
    if n == 0 then 0 else n - 1
  }

  /** `closeClaimed`: early pages other than `mine` are foreign after all. */
  function CloseClaimed(p: Pages, mine: set<Id>): Pages {
    p.(own := p.own - (p.early - mine), closed := p.closed + (p.early - mine), early := {})
  }

  function Answered(p: Pages, id: Id): Pages {
    var p1 := if id in p.early then p.(early := p.early - {id}) else p.(expected := LessOne(p.expected));
    CloseClaimed(p1.(own := p1.own + {id}), {id}).(creating := false, returned := p.returned + {id})
  }

  function Failed(p: Pages): Pages {
    CloseClaimed(p.(expected := LessOne(p.expected)), {}).(creating := false)
  }

  /** A page announced, `popup` if another page opened it: the pane's own runs, any other is closed. */
  function Announced(p: Pages, id: Id, popup: bool): Pages {
    var p1 := p.(announced := p.announced + {id});
    if id in p.own then p1.(resumed := p.resumed + {id})
    else if p.expected > 0 && !popup then
      p1.(expected := p.expected - 1, early := p.early + {id}, own := p.own + {id}, resumed := p.resumed + {id})
    else p1.(closed := p.closed + {id})
  }

  datatype Action = Create | Answer(id: Id) | Fail | Announce(id: Id, popup: bool)

  predicate Enabled(p: Pages, a: Action) {
    match a
    case Create => !p.creating
    case Answer(_) => p.creating
    case Fail => p.creating
    case Announce(id, _) => id !in p.announced
  }

  function Step(p: Pages, a: Action): Pages
    requires Enabled(p, a)
  {
    match a
    case Create => p.(expected := p.expected + 1, creating := true)
    case Answer(id) => Answered(p, id)
    case Fail => Failed(p)
    case Announce(id, popup) => Announced(p, id, popup)
  }

  predicate ValidRun(p: Pages, acts: seq<Action>)
    decreases |acts|
  {
    acts == [] || (Enabled(p, acts[0]) && ValidRun(Step(p, acts[0]), acts[1..]))
  }

  function Run(p: Pages, acts: seq<Action>): Pages
    requires ValidRun(p, acts)
    decreases |acts|
  {
    if acts == [] then p else Run(Step(p, acts[0]), acts[1..])
  }

  /** A creation's one expectation is held or was taken by one page; without a creation there is neither. */
  ghost predicate Inv(p: Pages) {
    && p.own == p.returned + p.early && p.early !! p.returned
    && p.early <= p.announced && p.closed <= p.announced && p.resumed <= p.announced
    && p.announced - p.own <= p.closed && p.announced == p.closed + p.resumed
    && p.early <= p.resumed && p.early !! p.closed
    && (if p.creating then (p.expected == 1 && p.early == {}) || (p.expected == 0 && exists id :: p.early == {id})
        else p.expected == 0 && p.early == {})
  }

  lemma StepKeeps(p: Pages, a: Action)
    requires Inv(p) && Enabled(p, a)
    ensures Inv(Step(p, a))
  {
    match a
    case Create =>
    case Answer(id) =>
      var p' := Answered(p, id);
      if p.early == {} {
        assert p'.own == p.own + {id};
      } else {
        var e :| p.early == {e};
        assert p'.own == p.returned + {id};
      }
    case Fail =>
      assert Failed(p).own == p.returned;
    case Announce(id, popup) =>
      if id !in p.own && p.expected > 0 && !popup {
        assert p.early + {id} == {id};
      }
  }

  lemma {:induction false} RunKeeps(p: Pages, acts: seq<Action>)
    requires Inv(p) && ValidRun(p, acts)
    ensures Inv(Run(p, acts))
    decreases |acts|
  {
    hide Inv, Step, Enabled;
    if acts != [] {
      StepKeeps(p, acts[0]);
      RunKeeps(Step(p, acts[0]), acts[1..]);
    }
  }

  /**
   * In whatever order announcements, answers and failures came: with no creation in flight nothing is left
   * of any, the pane's own pages are exactly those its creations returned, and each other page announced
   * was sent a close.
   */
  lemma NothingLeftOver(acts: seq<Action>)
    requires ValidRun(NONE, acts) && !Run(NONE, acts).creating
    ensures var p := Run(NONE, acts);
      p.expected == 0 && p.early == {} && p.own == p.returned && p.announced - p.returned <= p.closed
  {
    RunKeeps(NONE, acts);
    hide Run;
  }

  /** A page is closed as it is announced exactly when it is not known as own and no creation of this pane still awaits its page, or another page opened it. */
  lemma ClosedAtOnceIff(acts: seq<Action>, id: Id, popup: bool)
    requires ValidRun(NONE, acts) && id !in Run(NONE, acts).announced
    ensures var p := Run(NONE, acts);
      id in Announced(p, id, popup).closed <==> id !in p.returned && (popup || !p.creating || p.early != {})
  {
    RunKeeps(NONE, acts);
    hide Run;
  }

  /** Between a creation and its answer at most one page is taken for its own, and its answer settles which. */
  lemma AnswerSettles(acts: seq<Action>, id: Id)
    requires ValidRun(NONE, acts) && Run(NONE, acts).creating
    ensures var p := Run(NONE, acts);
      && |p.early| <= 1
      && Answered(p, id).own == p.returned + {id}
      && p.early - {id} <= Answered(p, id).closed
      && Failed(p).own == p.returned && p.early <= Failed(p).closed
  {
    RunKeeps(NONE, acts);
    hide Run;
    var p := Run(NONE, acts);
    if p.early != {} {
      var e :| p.early == {e};
      assert Answered(p, id).own == p.returned + {id};
    }
    assert Failed(p).own == p.returned;
  }

  /** No creation is answered with a page that was sent a close before. */
  ghost predicate AnswersOpen(p: Pages, acts: seq<Action>)
    requires ValidRun(p, acts)
    decreases |acts|
  {
    acts == [] || ((acts[0].Answer? ==> acts[0].id !in p.closed) && AnswersOpen(Step(p, acts[0]), acts[1..]))
  }

  lemma StepReturnsOpenIff(p: Pages, a: Action)
    requires Inv(p) && Enabled(p, a) && p.returned !! p.closed
    ensures Step(p, a).returned !! Step(p, a).closed <==> (a.Answer? ==> a.id !in p.closed)
  {
    if a.Answer? && a.id in p.closed {
      assert a.id in Step(p, a).returned && a.id in Step(p, a).closed;
    }
  }

  lemma {:induction false} OnceClosedStays(p: Pages, acts: seq<Action>, id: Id)
    requires ValidRun(p, acts) && id in p.returned && id in p.closed
    ensures id in Run(p, acts).returned && id in Run(p, acts).closed
    decreases |acts|
  {
    if acts != [] { OnceClosedStays(Step(p, acts[0]), acts[1..], id); }
  }

  lemma {:induction false} OpenIff(p: Pages, acts: seq<Action>)
    requires Inv(p) && ValidRun(p, acts) && p.returned !! p.closed
    ensures Run(p, acts).returned !! Run(p, acts).closed <==> AnswersOpen(p, acts)
    decreases |acts|
  {
    if acts != [] {
      var d := Step(p, acts[0]);
      StepKeeps(p, acts[0]);
      StepReturnsOpenIff(p, acts[0]);
      hide Step, Inv, Enabled;
      if d.returned !! d.closed {
        OpenIff(d, acts[1..]);
      } else {
        var id :| id in d.returned && id in d.closed;
        OnceClosedStays(d, acts[1..], id);
        assert id in Run(p, acts).returned && id in Run(p, acts).closed;
      }
    }
  }

  /** No page of the pane's own is sent a close, ever, exactly when none had been sent one as foreign before it was returned. */
  lemma ReturnedStayOpenIff(acts: seq<Action>)
    requires ValidRun(NONE, acts)
    ensures Run(NONE, acts).returned !! Run(NONE, acts).closed <==> AnswersOpen(NONE, acts)
  {
    OpenIff(NONE, acts);
  }

  // ---- The pane in place ----

  class GuestPages {
    var expected: nat
    var early: set<Id>
    var own: set<Id>
    ghost var creating: bool
    ghost var returned: set<Id>
    ghost var announced: set<Id>
    var closed: set<Id>
    var resumed: set<Id>

    ghost function State(): Pages
      reads this
    {
      Pages(expected, early, own, creating, returned, announced, closed, resumed)
    }

    constructor ()
      ensures State() == NONE
    {
      expected, early, own, closed, resumed := 0, {}, {}, {}, {};
      creating, returned, announced := false, {}, {};
    }

    method CloseEarly(mine: set<Id>)
      modifies this
      ensures State() == CloseClaimed(old(State()), mine)
    {
      var rest := early;
      ghost var foreign := early - mine;
      while rest != {}
        invariant rest <= old(early) && early == old(early)
        invariant own == old(own) - (foreign - rest) && closed == old(closed) + (foreign - rest)
        invariant State() == old(State()).(own := own, closed := closed)
        decreases |rest|
      {
        var id :| id in rest;
        rest := rest - {id};
        if id !in mine {
          own := own - {id};
          closed := closed + {id};
        }
      }
      assert foreign - rest == foreign;
      early := {};
    }

    method CreateBegins()
      requires !creating
      modifies this
      ensures State() == Step(old(State()), Create)
    {
      expected := expected + 1;
      creating := true;
    }

    method CreateAnswers(id: Id)
      requires creating
      modifies this
      ensures State() == Answered(old(State()), id)
    {
      if id in early { early := early - {id}; } else { expected := if expected == 0 then 0 else expected - 1; }
      own := own + {id};
      CloseEarly({id});
      creating, returned := false, returned + {id};
    }

    method CreateFails()
      requires creating
      modifies this
      ensures State() == Failed(old(State()))
    {
      expected := if expected == 0 then 0 else expected - 1;
      CloseEarly({});
      creating := false;
    }

    method PageAttached(id: Id, popup: bool)
      modifies this
      ensures State() == Announced(old(State()), id, popup)
    {
      announced := announced + {id};
      var mine := id in own;
      if !mine && expected > 0 && !popup {
        expected, early, own, mine := expected - 1, early + {id}, own + {id}, true;
      }
      if mine { resumed := resumed + {id}; } else { closed := closed + {id}; }
    }
  }
}
